/** Per-key order, consumer and store together (process in kafka/consumer.go, the per-key
    lists of dlq/machine.go): the consumer's loop and workers run beside the store and
    whoever else calls it. A worker looks for a message's key in the store, then runs the
    message or stores it behind what is there. Across both, no message starts work before
    every earlier one of its key, partition and assignment has been done or has left the
    store. */
module KeyOrder {
  import opened Records
  import opened ConsumerState
  import opened ConsumerPool
  import opened ConsumerSteps
  import opened ConsumerHistory
  import Runs = ConsumerRuns
  import Queues
  import Store

  /** ids names every message's record: an id belongs to one message. */
  datatype Setting = Setting(c: Config, ids: (TP, nat) -> Text)

  ghost predicate Injective(x: Setting) {
    forall a: TP, m: nat, b: TP, n: nat :: x.ids(a, m) == x.ids(b, n) ==> a == b && m == n
  }

  function IdFor(x: Setting, t: Task): Text { x.ids(t.tp, t.offset) }

  function KeyFor(x: Setting, t: Task): Text { x.c.keyOf(t.tp, t.offset) }

  /** How far handling a message has got: it runs, or it is to be stored; and whether it has
      been. */
  datatype Stage = Stage(runs: bool, stored: bool)

  datatype Joint = Joint(
    s: Loop,
    w: Store.World,
    exec: map<Task, Stage>,  // messages being handled, once their key was looked up
    seen: set<Task>,         // delivered
    done: set<Task>,         // handled to the end by the consumer
    put: set<Task>,          // stored by the consumer, whoever stored them first
    left: set<Task>,         // of those, gone from the store since
    owner: map<Text, Task>)  // records in the store, by the message that brought them there

  datatype Event =
    | Consume(e: Runs.Event)      // a step of the loop or of a worker
    | Look(t: Task)               // process asks the store for the message's key
    | Put(t: Task, rec: Record, ok: bool) // the message's record is appended; ok: and Append returns nil
    | Call(call: Store.Call)      // anything else that happens to the store

  predicate Holds(q: Queues.Queue, key: Text) {
    key != [] && exists id :: id in q.items && q.items[id].rec.orderKey == key
  }

  /** A record with a message's id is that message's, and has its key. */
  ghost predicate Labelled(x: Setting, rec: Record) {
    forall tp: TP, o: nat :: rec.id == x.ids(tp, o) ==> rec.orderKey == x.c.keyOf(tp, o)
  }

  /** The message whose handling an event ends. */
  function Ended(s: Loop, e: Runs.Event): Option<(Task, Outcome)> {
    match e
    case Return(t, o) => Some((t, o))
    case RunHere(o) => if s.backlog != [] then Some((s.backlog[0], o)) else None
    case _ => None
  }

  /** What process may report: done if it ran the message, deferred or parked if it stored
      it; a single worker does nothing else until then. */
  predicate Reported(x: Setting, j: Joint, e: Runs.Event) {
    && (!x.c.pooled && j.exec != map[] ==> e.RunHere?)
    && match Ended(j.s, e)
       case None => true
       case Some((t, o)) =>
         Finished(o) ==> t in j.exec && if o.Done? then j.exec[t].runs else j.exec[t].stored
  }

  ghost predicate DoConsume(x: Setting, j: Joint, e: Runs.Event, j': Joint) {
    && Runs.Next(x.c, j.s, e, j'.s) && Reported(x, j, e)
    && j' == j.(s := j'.s, seen := j.seen + Arrival(j.s, e),
                exec := if Ended(j.s, e).Some? then j.exec - {Ended(j.s, e).value.0} else j.exec,
                done := j.done + if Ended(j.s, e).Some? && Ended(j.s, e).value.1.Done? then {Ended(j.s, e).value.0} else {})
  }

  /** A worker has taken the message, or the loop is about to run it itself. */
  ghost predicate MayLook(x: Setting, j: Joint, t: Task) {
    if x.c.pooled then t in j.s.f.running
    else Runs.CanStart(x.c, j.s) && t == j.s.backlog[0] && j.exec == map[]
  }

  ghost predicate DoLook(x: Setting, j: Joint, t: Task, j': Joint) {
    && t !in j.exec && MayLook(x, j, t)
    && j' == j.(exec := j.exec[t := Stage(!Holds(j.w.q, KeyFor(x, t)), false)])
  }

  /** Append leaves a record that is there alone. */
  ghost predicate DoPut(x: Setting, j: Joint, t: Task, rec: Record, ok: bool, j': Joint) {
    && t in j.exec && rec.id == IdFor(x, t) && rec.orderKey == KeyFor(x, t)
    && Store.Step(j.w, Store.AppendCall(rec), j'.w)
    && j' == j.(w := j'.w, exec := j.exec[t := j.exec[t].(stored := ok || j.exec[t].stored)], put := j.put + {t},
                owner := if rec.id in j.w.q.items then j.owner else j.owner[rec.id := t])
  }

  /** Leases, acks, requeues and appends by others; records that go are noted. */
  ghost predicate DoCall(x: Setting, j: Joint, call: Store.Call, j': Joint) {
    && Store.Step(j.w, call, j'.w) && (call.AppendCall? ==> Labelled(x, call.rec))
    && j' == j.(w := j'.w,
                left := j.left + (set t | t in j.put && IdFor(x, t) in j.w.q.items && IdFor(x, t) !in j'.w.q.items),
                owner := map id | id in j.owner && id in j'.w.q.items :: j.owner[id])
  }

  ghost predicate Next(x: Setting, j: Joint, ev: Event, j': Joint) {
    match ev
    case Consume(e) => DoConsume(x, j, e, j')
    case Look(t) => DoLook(x, j, t, j')
    case Put(t, rec, ok) => DoPut(x, j, t, rec, ok, j')
    case Call(call) => DoCall(x, j, call, j')
  }

  /** A new consumer beside a store that may hold anything. */
  ghost predicate Start(x: Setting, j: Joint) {
    && j == Joint(Runs.IDLE, j.w, map[], {}, {}, {}, {}, map[])
    && Store.Sound(j.w.q) && forall id <- j.w.q.items :: Labelled(x, j.w.q.items[id].rec)
  }

  ghost predicate Run(x: Setting, js: seq<Joint>, evs: seq<Event>) {
    && Injective(x) && |js| == |evs| + 1 && Start(x, js[0])
    && forall i, k :: 0 <= i && k == i + 1 <= |evs| ==> Next(x, js[i], evs[i], js[k])
  }

  /** Work on the message starts: process runs it, or the record it brought to the store is
      leased. */
  ghost predicate Starts(j: Joint, ev: Event, j': Joint, t: Task) {
    match ev
    case Look(u) => u == t && t in j'.exec && j'.exec[t].runs
    case Call(call) => call.LeaseCall? && exists id :: id in call.ids && id in j.owner && j.owner[id] == t
    case _ => false
  }

  // ---- what every event keeps ----

  ghost predicate Ahead(q: Queues.Queue, a: Text, b: Text) {
    a in q.items && b in q.items && q.items[a].rec.seqNo < q.items[b].rec.seqNo
  }

  /** A stored message has every earlier one of its key behind it, or ahead of it in the
      store. */
  ghost predicate InLine(x: Setting, j: Joint, id: Text, t: Task) {
    && id in j.w.q.items && id == IdFor(x, t) && t in j.seen
    && (KeyFor(x, t) != [] ==> forall u <- j.seen :: Earlier(x.c, u, t) ==>
          u in j.done || u in j.left || (u in j.put && Ahead(j.w.q, IdFor(x, u), id)))
  }

  ghost predicate AllLabelled(x: Setting, q: Queues.Queue) { forall id <- q.items :: Labelled(x, q.items[id].rec) }

  ghost predicate StoreOk(x: Setting, j: Joint) {
    && Store.Sound(j.w.q) && AllLabelled(x, j.w.q)
    && (forall t <- j.put :: IdFor(x, t) in j.w.q.items || t in j.left)
    && (forall id <- j.owner :: InLine(x, j, id, j.owner[id]))
  }

  ghost predicate LoopOk(x: Setting, j: Joint) {
    && Good(x.c, j.s) && (!x.c.pooled ==> j.s.f.results == map[])
    && Seen(j.s, j.seen) && Safe(j.s, j.done + j.put) && Fronts(x.c, j.s, j.seen, j.done + j.put)
  }

  ghost predicate StageOk(x: Setting, j: Joint, t: Task)
    requires t in j.exec
  {
    && t in j.seen && (j.exec[t].stored ==> t in j.put)
    && (KeyFor(x, t) != [] ==> Front(x.c, j.seen, j.done + j.put, t))
    && (if x.c.pooled then t in j.s.f.running else j.s.backlog != [] && t == j.s.backlog[0])
  }

  ghost predicate Inv(x: Setting, j: Joint) {
    LoopOk(x, j) && StoreOk(x, j) && forall t <- j.exec :: StageOk(x, j, t)
  }

  // ---- the loop ----

  /** A delivery that is new comes after everything delivered before. */
  lemma ArrivalLate(x: Setting, s: Loop, e: Runs.Event, s': Loop, seen: set<Task>, u: Task, t: Task)
    requires Good(x.c, s) && Seen(s, seen) && Runs.Next(x.c, s, e, s') && t in seen
    requires u in Arrival(s, e) && Earlier(x.c, u, t)
    ensures u in seen
  {
    hide Good, Held;
    GoodFrontier(x.c, s, u.tp);
    assert Delivered(u.tp, s.b.parts[u.tp], s.b.past[u.tp], seen);
  }

  lemma ReportsSafe(x: Setting, j: Joint, e: Runs.Event, j': Joint)
    requires DoConsume(x, j, e, j') && forall t <- j.exec :: StageOk(x, j, t)
    ensures j.done + j.put + Reports(j.s, e) <= j'.done + j'.put
  {
    hide Runs.Next, Front;
  }

  lemma FrontsMore(c: Config, s: Loop, seen: set<Task>, safe: set<Task>, more: set<Task>)
    requires Fronts(c, s, seen, safe) && safe <= more
    ensures Fronts(c, s, seen, more)
  {
  }

  lemma LoopKeeps(x: Setting, j: Joint, e: Runs.Event, j': Joint)
    requires Inv(x, j) && DoConsume(x, j, e, j')
    ensures LoopOk(x, j')
  {
    hide Good, Seen, Safe, Fronts, Runs.Next, StoreOk, Front;
    var c, safe := x.c, j.done + j.put;
    ReportsSafe(x, j, e, j');
    hide StageOk, Reported;
    Runs.NextGood(c, j.s, e, j'.s);
    if !c.pooled {
      Runs.NextAlone(c, j.s, e, j'.s);
    }
    SeenKept(c, j.s, e, j'.s, j.seen);
    SafeKept(c, j.s, e, j'.s, safe);
    SafeMore(j'.s, safe + Reports(j.s, e), j'.done + j'.put);
    FrontsKept(c, j.s, e, j'.s, j.seen, safe);
    FrontsMore(c, j'.s, j'.seen, safe + Reports(j.s, e), j'.done + j'.put);
  }

  /** A worker keeps a message until it returns it. */
  lemma RunningStays(c: Config, s: Loop, e: Runs.Event, s': Loop, t: Task)
    requires c.pooled && Runs.Next(c, s, e, s') && t in s.f.running && !(e.Return? && e.t == t)
    ensures t in s'.f.running
  {
    hide MarkedDone, Dropped, Queued;
  }

  lemma StagesKeep(x: Setting, j: Joint, e: Runs.Event, j': Joint)
    requires Inv(x, j) && DoConsume(x, j, e, j') && LoopOk(x, j')
    ensures forall t <- j'.exec :: StageOk(x, j', t)
  {
    hide Good, Seen, Safe, Runs.Next, StoreOk, Front;
    forall t <- j'.exec ensures StageOk(x, j', t) {
      assert StageOk(x, j, t);
      if x.c.pooled {
        RunningStays(x.c, j.s, e, j'.s, t);
      }
    }
  }

  lemma LinesStay(x: Setting, j: Joint, e: Runs.Event, j': Joint)
    requires Inv(x, j) && DoConsume(x, j, e, j')
    ensures StoreOk(x, j')
  {
    hide Good, Seen, Safe, Fronts, Runs.Next, Labelled, Store.Sound, StageOk, Reported, Ahead;
    forall id <- j'.owner ensures InLine(x, j', id, j'.owner[id]) {
      var t := j.owner[id];
      assert InLine(x, j, id, t);
      forall u <- j'.seen | KeyFor(x, t) != [] && Earlier(x.c, u, t)
        ensures u in j'.done || u in j'.left || (u in j'.put && Ahead(j'.w.q, IdFor(x, u), id))
      {
        if u !in j.seen {
          ArrivalLate(x, j.s, e, j'.s, j.seen, u, t);
        }
      }
    }
  }

  lemma LookKeeps(x: Setting, j: Joint, t: Task, j': Joint)
    requires Inv(x, j) && DoLook(x, j, t, j')
    ensures Inv(x, j')
  {
    hide Good, Safe, Front, Labelled, Store.Sound, Ahead, Holds, Delivered;
    assert LoopOk(x, j') && StoreOk(x, j') by { SameElsewhere(x, j, j'); }
    assert Held(j.s, t);
    if KeyFor(x, t) != [] && !x.c.pooled {
      FrontNow(x.c, j.s, j.seen, j.done + j.put, t);
    }
    forall u <- j'.exec ensures StageOk(x, j', u) {
      assert u != t ==> StageOk(x, j, u);
    }
  }

  lemma SameElsewhere(x: Setting, j: Joint, j': Joint)
    requires LoopOk(x, j) && StoreOk(x, j) && j' == j.(exec := j'.exec)
    ensures LoopOk(x, j') && StoreOk(x, j')
  {
    hide Good, Seen, Safe, Fronts, Labelled, Store.Sound, Ahead;
    forall id <- j'.owner ensures InLine(x, j', id, j'.owner[id]) {
      assert InLine(x, j, id, j.owner[id]);
    }
  }

  // ---- the store ----

  lemma LabelsKept(x: Setting, w: Store.World, call: Store.Call, w': Store.World)
    requires Store.Step(w, call, w') && AllLabelled(x, w.q) && (call.AppendCall? ==> Labelled(x, call.rec))
    ensures AllLabelled(x, w'.q)
  {
    hide Store.Step, Labelled;
    forall id <- w'.q.items ensures Labelled(x, w'.q.items[id].rec) {
      Store.StepRecords(w, call, w', id);
      if id in w.q.items {
        assert Labelled(x, w.q.items[id].rec);
        SameLabel(x, w.q.items[id].rec, w'.q.items[id].rec);
      }
    }
  }

  lemma SameLabel(x: Setting, a: Record, b: Record)
    requires Labelled(x, a) && a.id == b.id && a.orderKey == b.orderKey
    ensures Labelled(x, b)
  {
  }

  lemma AheadLater(w: Store.World, call: Store.Call, w': Store.World, a: Text, b: Text)
    requires Store.Step(w, call, w') && Ahead(w.q, a, b) && a in w'.q.items && b in w'.q.items
    ensures Ahead(w'.q, a, b)
  {
    hide Store.Step;
    Store.StepRecords(w, call, w', a);
    Store.StepRecords(w, call, w', b);
  }

  lemma LineLater(x: Setting, j: Joint, call: Store.Call, j': Joint, id: Text, t: Task)
    requires Store.Step(j.w, call, j'.w) && InLine(x, j, id, t) && id in j'.w.q.items
    requires j'.seen == j.seen && j'.done == j.done && j.left <= j'.left && j.put <= j'.put
    requires forall u <- j.put :: IdFor(x, u) in j.w.q.items && IdFor(x, u) !in j'.w.q.items ==> u in j'.left
    ensures InLine(x, j', id, t)
  {
    hide Store.Step;
    forall u <- j'.seen | KeyFor(x, t) != [] && Earlier(x.c, u, t)
      ensures u in j'.done || u in j'.left || (u in j'.put && Ahead(j'.w.q, IdFor(x, u), id))
    {
      if Ahead(j.w.q, IdFor(x, u), id) && IdFor(x, u) in j'.w.q.items {
        AheadLater(j.w, call, j'.w, IdFor(x, u), id);
      }
    }
  }

  lemma CallKeeps(x: Setting, j: Joint, call: Store.Call, j': Joint)
    requires Inv(x, j) && DoCall(x, j, call, j')
    ensures Inv(x, j')
  {
    hide Store.Step, Good, Seen, Safe, Fronts, Front, Labelled, Store.Sound, AllLabelled, InLine;
    Store.StepSound(j.w, call, j'.w);
    LabelsKept(x, j.w, call, j'.w);
    forall id <- j'.owner ensures InLine(x, j', id, j'.owner[id]) {
      LineLater(x, j, call, j', id, j.owner[id]);
    }
    forall t <- j'.exec ensures StageOk(x, j', t) {
      assert StageOk(x, j, t);
    }
  }

  lemma PutMore(x: Setting, j: Joint, j': Joint)
    requires LoopOk(x, j) && j'.s == j.s && j'.seen == j.seen && j'.done == j.done && j.put <= j'.put
    ensures LoopOk(x, j')
  {
    hide Good, Seen, Safe, Fronts;
    SafeMore(j.s, j.done + j.put, j'.done + j'.put);
    FrontsMore(x.c, j.s, j.seen, j.done + j.put, j'.done + j'.put);
  }

  lemma PutStages(x: Setting, j: Joint, t: Task, rec: Record, ok: bool, j': Joint)
    requires Inv(x, j) && DoPut(x, j, t, rec, ok, j')
    ensures forall u <- j'.exec :: StageOk(x, j', u)
  {
    hide Store.Step, LoopOk, StoreOk, Front;
    forall u <- j'.exec ensures StageOk(x, j', u) {
      assert StageOk(x, j, u);
      if KeyFor(x, u) != [] {
        FrontMore(x.c, j.seen, j.done + j.put, j'.done + j'.put, u);
      }
    }
  }

  /** A record that is new comes last in its line. */
  lemma NewLine(x: Setting, j: Joint, t: Task, rec: Record, ok: bool, j': Joint)
    requires Inv(x, j) && DoPut(x, j, t, rec, ok, j') && rec.id !in j.w.q.items
    ensures InLine(x, j', rec.id, t)
  {
    hide LoopOk, Labelled, Store.HeadOfLine;
    var q, q' := j.w.q, j'.w.q;
    assert StageOk(x, j, t);
    assert q' == Queues.Insert(q, rec) && rec.seqNo == q.seqNo + 1;
    forall u <- j'.seen | KeyFor(x, t) != [] && Earlier(x.c, u, t)
      ensures u in j'.done || u in j'.left || (u in j'.put && Ahead(q', IdFor(x, u), rec.id))
    {
      assert u in j.done || u in j.put;
      if IdFor(x, u) in q.items {
        assert q.items[IdFor(x, u)].rec.seqNo <= q.seqNo;
      }
    }
  }

  lemma PutRecord(w: Store.World, rec: Record, w': Store.World)
    requires Store.Step(w, Store.AppendCall(rec), w')
    ensures forall id :: id in w.q.items ==> id in w'.q.items
    ensures rec.id in w'.q.items
  {
  }

  lemma OwnLabel(x: Setting, t: Task, rec: Record)
    requires Injective(x) && rec.id == IdFor(x, t) && rec.orderKey == KeyFor(x, t)
    ensures Labelled(x, rec)
  {
  }

  lemma PutStore(x: Setting, j: Joint, t: Task, rec: Record, ok: bool, j': Joint)
    requires Injective(x) && Inv(x, j) && DoPut(x, j, t, rec, ok, j')
    ensures StoreOk(x, j')
  {
    hide Store.Step, LoopOk, StageOk, Labelled, Store.Sound, AllLabelled, InLine;
    var call := Store.AppendCall(rec);
    Store.StepSound(j.w, call, j'.w);
    OwnLabel(x, t, rec);
    LabelsKept(x, j.w, call, j'.w);
    PutRecord(j.w, rec, j'.w);
    forall id <- j'.owner ensures InLine(x, j', id, j'.owner[id]) {
      if id == rec.id && rec.id !in j.w.q.items {
        NewLine(x, j, t, rec, ok, j');
      } else {
        InLineStored(x, j, id, j.owner[id]);
        LineLater(x, j, call, j', id, j.owner[id]);
      }
    }
  }

  lemma InLineStored(x: Setting, j: Joint, id: Text, t: Task)
    requires InLine(x, j, id, t)
    ensures id in j.w.q.items
  {
  }

  lemma NextKeeps(x: Setting, j: Joint, ev: Event, j': Joint)
    requires Injective(x) && Inv(x, j) && Next(x, j, ev, j')
    ensures Inv(x, j')
  {
    hide LoopOk, StoreOk, StageOk, DoConsume, DoLook, DoCall, Injective, Store.Step;
    match ev
    case Consume(e) =>
      LoopKeeps(x, j, e, j');
      StagesKeep(x, j, e, j');
      LinesStay(x, j, e, j');
    case Look(t) => LookKeeps(x, j, t, j');
    case Put(t, rec, ok) =>
      PutMore(x, j, j');
      PutStages(x, j, t, rec, ok, j');
      PutStore(x, j, t, rec, ok, j');
    case Call(call) => CallKeeps(x, j, call, j');
  }

  lemma StartKeeps(x: Setting, j: Joint)
    requires Start(x, j)
    ensures Inv(x, j)
  {
    hide Good, Labelled, Store.Sound;
    Runs.IdleGood(x.c);
    assert Pool(Runs.IDLE.f) == {};
  }

  lemma {:induction false} RunKeeps(x: Setting, js: seq<Joint>, evs: seq<Event>, i: nat)
    requires Run(x, js, evs) && i < |js|
    ensures Inv(x, js[i])
  {
    hide Inv, Next, Start, Injective;
    if i == 0 {
      StartKeeps(x, js[0]);
    } else {
      RunKeeps(x, js, evs, i - 1);
      NextKeeps(x, js[i - 1], evs[i - 1], js[i]);
    }
  }

  // ---- order ----

  /** A message's record in the store has its key. */
  lemma KeyStored(x: Setting, q: Queues.Queue, t: Task)
    requires Store.Sound(q) && AllLabelled(x, q) && IdFor(x, t) in q.items
    ensures q.items[IdFor(x, t)].rec.orderKey == KeyFor(x, t)
  {
    hide Store.HeadOfLine;
    assert Labelled(x, q.items[IdFor(x, t)].rec);
  }

  /** Whenever work on a message starts, at the consumer or from the store, every earlier
      message of its key has been done or has left the store. */
  lemma StartsInOrder(x: Setting, j: Joint, ev: Event, j': Joint, t: Task, u: Task)
    requires Inv(x, j) && Next(x, j, ev, j') && Starts(j, ev, j', t)
    requires u in j.seen && Earlier(x.c, u, t) && KeyFor(x, t) != []
    ensures u in j.done + j.left
  {
    match ev
    case Look(_) => LookInOrder(x, j, t, j', u);
    case Call(call) => LeaseInOrder(x, j, call, j', t, u);
    case _ =>
  }

  lemma LookInOrder(x: Setting, j: Joint, t: Task, j': Joint, u: Task)
    requires Inv(x, j) && DoLook(x, j, t, j') && t in j'.exec && j'.exec[t].runs
    requires u in j.seen && Earlier(x.c, u, t) && KeyFor(x, t) != []
    ensures u in j.done + j.left
  {
    LookKeeps(x, j, t, j');
    hide LoopOk, Store.Sound, AllLabelled, DoLook;
    assert j' == j.(exec := j'.exec) && !Holds(j.w.q, KeyFor(x, t)) by { Looked(x, j, t, j'); }
    assert StageOk(x, j', t);
    if IdFor(x, u) in j.w.q.items {
      KeyStored(x, j.w.q, u);
    }
  }

  lemma Looked(x: Setting, j: Joint, t: Task, j': Joint)
    requires DoLook(x, j, t, j')
    ensures t in j'.exec && j' == j.(exec := j'.exec) && (j'.exec[t].runs <==> !Holds(j.w.q, KeyFor(x, t)))
  {
  }

  lemma LeaseInOrder(x: Setting, j: Joint, call: Store.Call, j': Joint, t: Task, u: Task)
    requires Inv(x, j) && DoCall(x, j, call, j') && Starts(j, Call(call), j', t)
    requires u in j.seen && Earlier(x.c, u, t) && KeyFor(x, t) != []
    ensures u in j.done + j.left
  {
    hide LoopOk, StageOk, AllLabelled, Store.Sound, Store.Perform, Store.Fresh;
    var id :| id in call.ids && id in j.owner && j.owner[id] == t;
    assert InLine(x, j, id, t);
    assert Store.Eligible(j.w.q, id, call.now);
    KeyStored(x, j.w.q, t);
    if IdFor(x, u) in j.w.q.items {
      KeyStored(x, j.w.q, u);
    }
  }

  /** Per-key order over whole runs of consumer and store: for two deliveries of one key,
      partition and assignment, work on the later one starts, each time it does, only after
      the earlier one has been done or has left the store. */
  lemma KeyOrderKept(x: Setting, js: seq<Joint>, evs: seq<Event>, i: nat, t: Task, u: Task)
    requires Run(x, js, evs) && i < |evs| && Starts(js[i], evs[i], js[i + 1], t)
    requires u in js[i].seen && Earlier(x.c, u, t) && KeyFor(x, t) != []
    ensures u in js[i].done + js[i].left
  {
    hide Inv, Next, Starts, Earlier;
    RunKeeps(x, js, evs, i);
    StartsInOrder(x, js[i], evs[i], js[i + 1], t, u);
  }
}
