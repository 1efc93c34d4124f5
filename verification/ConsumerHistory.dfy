/** What the consumer's events do to the messages it holds, seen over time: which have been
    delivered, which are known to be safe, and what stands before each message that a worker
    has in hand. */
module ConsumerHistory {
  import opened ConsumerState
  import opened ConsumerPool
  import opened ConsumerLines
  import opened ConsumerSteps
  import opened ConsumerRuns

  /** The message waits, runs, or has run and the loop has not seen the result. */
  ghost predicate Held(s: Loop, t: Task) { t in s.backlog || t in Pool(s.f) }

  /** Same partition, assignment and key, and delivered before. */
  predicate Earlier(c: Config, u: Task, t: Task) {
    u.tp == t.tp && u.gen == t.gen && u.offset < t.offset && c.keyOf(u.tp, u.offset) == c.keyOf(t.tp, t.offset)
  }

  /** Every delivered message before t is in these. */
  ghost predicate Front(c: Config, seen: set<Task>, safe: set<Task>, t: Task) {
    forall u <- seen :: Earlier(c, u, t) ==> u in safe
  }

  /** The deliveries of a partition's present assignment: all from its first up to some
      offset, with everything the partition has accepted among them. */
  ghost predicate Delivered(tp: TP, p: Part, h: Past, seen: set<Task>) {
    && (forall t <- seen :: t.tp == tp && t.gen == p.gen ==> 0 <= h.first <= t.offset && p.next >= 0)
    && (forall o: nat :: 0 <= h.first <= o < p.next ==> Task(tp, o, p.gen) in seen)
    && (forall o <- h.safe :: Task(tp, o, p.gen) in seen)
    && (forall t <- seen, o: nat :: t.tp == tp && t.gen == p.gen && h.first <= o <= t.offset ==> Task(tp, o, p.gen) in seen)
  }

  ghost predicate Seen(s: Loop, seen: set<Task>) {
    && (forall t :: Held(s, t) ==> t in seen)
    && (forall t <- seen :: t.gen <= s.b.gen)
    && s.b.past.Keys == s.b.parts.Keys
    && (forall tp <- s.b.parts :: Delivered(tp, s.b.parts[tp], s.b.past[tp], seen))
  }

  /** What the loop takes for safe is. */
  ghost predicate Safe(s: Loop, safe: set<Task>) {
    && s.b.past.Keys == s.b.parts.Keys
    && (forall tp <- s.b.parts, o: nat :: o in s.b.past[tp].safe ==> Task(tp, o, s.b.parts[tp].gen) in safe)
    && (forall t <- s.f.results :: Finished(s.f.results[t]) ==> t in safe)
  }

  /** The message an event delivers. */
  function Arrival(s: Loop, e: Event): set<Task> {
    if e.Accept? && e.tp in s.b.parts then {Task(e.tp, e.offset, s.b.parts[e.tp].gen)} else {}
  }

  // ---- where messages come from ----

  lemma {:induction false} AdvancedSame(p: Part)
    ensures Advanced(p) == p.(frontier := Advanced(p).frontier, completed := Advanced(p).completed)
    decreases p.completed
  {
    if p.frontier >= 0 && p.frontier in p.completed {
      AdvancedSame(p.(completed := p.completed - {p.frontier}, frontier := p.frontier + 1));
    }
  }

  lemma FewerQueued(a: Queues, b: Queues)
    requires forall k <- a :: k in b && forall t <- a[k] :: t in b[k]
    ensures Queued(a) <= Queued(b)
  {
    forall t <- Queued(a) ensures t in Queued(b) {
      var k :| k in a && t in a[k];
      assert t in b[k];
    }
  }

  lemma QueuedIn(queues: Queues, k: KeyId, t: Task)
    requires k in queues && t in queues[k]
    ensures t in Queued(queues)
  {
  }

  /** A finished message's key moves up. */
  lemma FinishedHeld(c: Config, s: Loop, t: Task)
    requires t.tp in s.b.parts && t.tp in s.b.past
    ensures var r := FinishedAt(c, s, t);
            && (forall u :: u in Pool(r.f) ==> u in Pool(s.f)) && r.backlog == s.backlog
            && r.b.parts.Keys == s.b.parts.Keys && (forall tp <- s.b.parts :: r.b.parts[tp].gen == s.b.parts[tp].gen)
  {
    hide Queued;
    var k, q := IdOf(c.keyOf, t), s.f.queues;
    var p := s.b.parts[t.tp].(inflight := s.b.parts[t.tp].inflight - 1);
    AdvancedSame(p.(completed := p.completed + {t.offset}));
    FewerQueued(NextQueues(q, k), q);
    if k in q && q[k] != [] {
      QueuedIn(q, k, q[k][0]);
    }
  }

  lemma FailedHeld(c: Config, s: Loop, t: Task)
    requires t.tp in s.b.parts
    ensures var r := FailedAt(c, s, t);
            && (forall u :: u in Pool(r.f) ==> u in Pool(s.f)) && r.backlog == s.backlog
            && r.b.parts.Keys == s.b.parts.Keys && (forall tp <- s.b.parts :: r.b.parts[tp].gen == s.b.parts[tp].gen)
  {
    hide Queued;
    FewerQueued(s.f.queues - {IdOf(c.keyOf, t)}, s.f.queues);
  }

  lemma ResultHeld(c: Config, s: Loop, t: Task, s': Loop)
    requires DoResult(c, s, t, s')
    ensures t in s.f.results && forall u :: Held(s', u) ==> Held(s, u)
    ensures s'.b.parts.Keys == s.b.parts.Keys && forall tp <- s.b.parts :: s'.b.parts[tp].gen == s.b.parts[tp].gen
  {
    hide FinishedAt, FailedAt, Queued;
    if Current(s.b.parts, t) {
      FinishedHeld(c, s, t);
      FailedHeld(c, s, t);
    }
  }

  /** A message goes to the workers or behind its key. */
  lemma SentHeld(c: Config, f: Flight, t: Task)
    ensures forall u :: u in Pool(SentTo(c.keyOf, f, t)) ==> u in Pool(f) || u == t
  {
    hide Queued;
    var k, q := IdOf(c.keyOf, t), f.queues;
    var q' := SentTo(c.keyOf, f, t).queues;
    forall u | u in Queued(q') ensures u in Queued(q) || u == t {
      JoinedFrom(q, q', k, t, u);
    }
  }

  lemma JoinedFrom(q: Queues, q': Queues, k: KeyId, t: Task, u: Task)
    requires q' == q || q' == q[k := []] || (k in q && q' == q[k := q[k] + [t]])
    requires u in Queued(q')
    ensures u in Queued(q) || u == t
  {
    var x :| x in q' && u in q'[x];
    assert (x in q && u in q[x]) || u == t;
  }

  /** Nothing is held that was not held before or has just been delivered. */
  lemma HeldFrom(c: Config, s: Loop, e: Event, s': Loop)
    requires Next(c, s, e, s')
    ensures forall t :: Held(s', t) ==> Held(s, t) || t in Arrival(s, e)
  {
    hide DoResult, SentTo, Queued;
    match e
    case Start => SentHeld(c, s.f, s.backlog[0]);
    case RunHere(o) => ResultHeld(c, Ran(s, o), s.backlog[0], s');
    case Result(t) => ResultHeld(c, s, t, s');
    case Revoke(tp) => FewerQueued(s'.f.queues, s.f.queues);
    case _ =>
  }

  // ---- deliveries ----

  /** What a step may do to a partition it neither delivers to nor assigns. */
  ghost predicate Shifts(p: Part, h: Past, p': Part, h': Past, more: set<nat>) {
    && p'.gen == p.gen && h'.first == h.first && (p'.next == p.next || p'.next == p'.frontier)
    && h.safe <= h'.safe <= h.safe + more
  }

  lemma ResultShifts(c: Config, s: Loop, t: Task, s': Loop, tp: TP)
    requires DoResult(c, s, t, s') && s.b.past.Keys == s.b.parts.Keys && tp in s.b.parts
    ensures tp in s'.b.parts && tp in s'.b.past
    ensures var more := if Current(s.b.parts, t) && Finished(s.f.results[t]) && t.tp == tp then {t.offset} else {};
            Shifts(s.b.parts[tp], s.b.past[tp], s'.b.parts[tp], s'.b.past[tp], more)
  {
    hide Dropped, ReleasedTo;
    if Current(s.b.parts, t) {
      var p := s.b.parts[t.tp].(inflight := s.b.parts[t.tp].inflight - 1);
      AdvancedSame(p.(completed := p.completed + {t.offset}));
    }
  }

  /** The messages whose results a step takes as safe. */
  function Settles(s: Loop, e: Event): set<Task> {
    match e
    case Result(t) => if t in s.f.results && Finished(s.f.results[t]) then {t} else {}
    case RunHere(o) => if s.backlog != [] && Finished(o) then {s.backlog[0]} else {}
    case _ => {}
  }

  lemma NextShifts(c: Config, s: Loop, e: Event, s': Loop, tp: TP)
    requires Next(c, s, e, s') && s.b.past.Keys == s.b.parts.Keys && tp in s'.b.parts && e != Assign(tp)
    requires !(e.Accept? && e.tp == tp)
    ensures tp in s'.b.past && tp in s.b.parts
    ensures Shifts(s.b.parts[tp], s.b.past[tp], s'.b.parts[tp], s'.b.past[tp],
              set t | t in Settles(s, e) && t.tp == tp && t.gen == s.b.parts[tp].gen :: t.offset)
  {
    hide DoResult, SentTo, Dropped, Without;
    var more := set t | t in Settles(s, e) && t.tp == tp && t.gen == s'.b.parts[tp].gen :: t.offset;
    match e
    case Result(t) =>
      ResultHeld(c, s, t, s');
      ResultShifts(c, s, t, s', tp);
      assert t in Settles(s, e) && t.tp == tp && t.gen == s'.b.parts[tp].gen ==> t.offset in more;
    case RunHere(o) =>
      var t := s.backlog[0];
      ResultHeld(c, Ran(s, o), t, s');
      ResultShifts(c, Ran(s, o), t, s', tp);
      assert t in Settles(s, e) && t.tp == tp && t.gen == s'.b.parts[tp].gen ==> t.offset in more;
    case _ =>
  }

  lemma SettlesHeld(c: Config, s: Loop, e: Event, s': Loop)
    requires Next(c, s, e, s')
    ensures forall t <- Settles(s, e) :: Held(s, t)
  {
  }

  lemma DeliveredStays(tp: TP, p: Part, h: Past, p': Part, h': Past, seen: set<Task>, more: set<nat>)
    requires Delivered(tp, p, h, seen) && Shifts(p, h, p', h', more) && (forall o <- more :: Task(tp, o, p.gen) in seen)
    requires p'.next >= 0 ==> FrontierOk(p', h')
    requires p.next >= 0 ==> p'.next >= 0
    ensures Delivered(tp, p', h', seen)
  {
  }

  lemma DeliveredMore(tp: TP, p: Part, h: Past, seen: set<Task>, more: set<Task>)
    requires Delivered(tp, p, h, seen) && forall t <- more :: !(t.tp == tp && t.gen == p.gen)
    ensures Delivered(tp, p, h, seen + more)
  {
  }

  lemma DeliveredNext(tp: TP, p: Part, h: Past, o: nat, seen: set<Task>)
    requires Delivered(tp, p, h, seen) && (if p.next < 0 then h == Past(-1, {}) else 0 <= h.first <= p.next == o)
    ensures Delivered(tp, Accepted(p, o), PastAccepted(p, h, o), seen + {Task(tp, o, p.gen)})
  {
  }

  /** The frontier of a partition is what it says, and a partition once begun stays so. */
  lemma GoodFrontier(c: Config, s: Loop, tp: TP)
    requires Good(c, s) && tp in s.b.parts
    ensures tp in s.b.past && (s.b.parts[tp].next >= 0 ==> FrontierOk(s.b.parts[tp], s.b.past[tp]))
    ensures s.b.parts[tp].next < 0 ==> Untouched(s.b.parts[tp], s.b.past[tp])
  {
    hide Sound;
    assert PartOk(s.b.parts[tp], s.b.past[tp], Mine(Pool(s.f), tp, s.b.parts[tp].gen), Waiting(s.backlog, tp));
  }

  lemma SeenPart(c: Config, s: Loop, e: Event, s': Loop, seen: set<Task>, tp: TP)
    requires Good(c, s) && Good(c, s') && Next(c, s, e, s') && Seen(s, seen) && tp in s'.b.parts
    ensures tp in s'.b.past && Delivered(tp, s'.b.parts[tp], s'.b.past[tp], seen + Arrival(s, e))
  {
    hide Good, Delivered, FrontierOk;
    GoodFrontier(c, s', tp);
    if e == Assign(tp) {
      NoneYet(tp, s.b.gen, seen);
      assert seen + Arrival(s, e) == seen;
    } else {
      GoodFrontier(c, s, tp);
      var p, h, p', h' := s.b.parts[tp], s.b.past[tp], s'.b.parts[tp], s'.b.past[tp];
      if e.Accept? && e.tp == tp {
        assert FrontierOk(p, h) ==> 0 <= h.first <= p.next by { FrontierBegun(p, h); }
        DeliveredNext(tp, p, h, e.offset, seen);
      } else {
        NextShifts(c, s, e, s', tp);
        SettlesHeld(c, s, e, s');
        var more := set t | t in Settles(s, e) && t.tp == tp && t.gen == p.gen :: t.offset;
        assert p.next >= 0 ==> p'.next >= 0 by { FrontierBegun(p', h'); FrontierBegun(p, h); }
        DeliveredStays(tp, p, h, p', h', seen, more);
        DeliveredMore(tp, p', h', seen, Arrival(s, e));
      }
    }
  }

  lemma FrontierBegun(p: Part, h: Past)
    ensures FrontierOk(p, h) ==> 0 <= h.first <= p.next && h.first <= p.frontier
  {
  }

  lemma NoneYet(tp: TP, gen: nat, seen: set<Task>)
    requires forall t <- seen :: t.gen <= gen
    ensures Delivered(tp, Part(-1, -1, -1, gen + 1, {}, 0), Past(-1, {}), seen)
  {
  }

  lemma SeenKept(c: Config, s: Loop, e: Event, s': Loop, seen: set<Task>)
    requires Good(c, s) && Good(c, s') && Next(c, s, e, s') && Seen(s, seen)
    ensures Seen(s', seen + Arrival(s, e))
  {
    hide Good, Delivered, Held, Next;
    HeldFrom(c, s, e, s');
    GoodPast(c, s');
    GensGrow(c, s, e, s');
    ArrivalGen(c, s, e);
    forall tp <- s'.b.parts ensures Delivered(tp, s'.b.parts[tp], s'.b.past[tp], seen + Arrival(s, e)) {
      SeenPart(c, s, e, s', seen, tp);
    }
  }

  lemma ArrivalGen(c: Config, s: Loop, e: Event)
    requires Good(c, s)
    ensures forall t <- Arrival(s, e) :: t.gen <= s.b.gen
  {
    hide PartsOk;
  }

  lemma GensGrow(c: Config, s: Loop, e: Event, s': Loop)
    requires Next(c, s, e, s')
    ensures s.b.gen <= s'.b.gen
  {
    hide MarkedDone, Dropped;
  }

  // ---- results ----

  /** The messages an event reports as done or stored. */
  function Reports(s: Loop, e: Event): set<Task> {
    match e
    case Return(t, o) => if Finished(o) then {t} else {}
    case RunHere(o) => if s.backlog != [] && Finished(o) then {s.backlog[0]} else {}
    case _ => {}
  }

  lemma SafePart(c: Config, s: Loop, e: Event, s': Loop, safe: set<Task>, tp: TP, o: nat)
    requires Next(c, s, e, s') && Safe(s, safe) && tp in s'.b.parts && tp in s'.b.past && o in s'.b.past[tp].safe
    ensures Task(tp, o, s'.b.parts[tp].gen) in safe + Reports(s, e)
  {
    hide DoResult;
    if e != Assign(tp) && !(e.Accept? && e.tp == tp) {
      NextShifts(c, s, e, s', tp);
      hide Next;
      if o !in s.b.past[tp].safe {
        var t :| t in Settles(s, e) && t.tp == tp && t.gen == s.b.parts[tp].gen && t.offset == o;
        assert t == Task(tp, o, s'.b.parts[tp].gen);
      }
    }
  }

  lemma SafeResults(c: Config, s: Loop, e: Event, s': Loop, safe: set<Task>)
    requires Next(c, s, e, s') && Safe(s, safe)
    ensures forall t <- s'.f.results :: Finished(s'.f.results[t]) ==> t in safe + Reports(s, e)
  {
    hide DoResult, SentTo, Dropped;
    match e
    case Result(t) => ResultTaken(c, s, t, s');
    case RunHere(o) => ResultTaken(c, Ran(s, o), s.backlog[0], s');
    case Start => SentResults(c, s.f, s.backlog[0]);
    case _ =>
  }

  lemma SentResults(c: Config, f: Flight, t: Task)
    ensures SentTo(c.keyOf, f, t).results == f.results
  {
  }

  lemma SafeKept(c: Config, s: Loop, e: Event, s': Loop, safe: set<Task>)
    requires Good(c, s') && Next(c, s, e, s') && Safe(s, safe)
    ensures Safe(s', safe + Reports(s, e))
  {
    hide Good, Next;
    GoodPast(c, s');
    SafeResults(c, s, e, s', safe);
    forall tp <- s'.b.parts, o: nat | o in s'.b.past[tp].safe
      ensures Task(tp, o, s'.b.parts[tp].gen) in safe + Reports(s, e)
    {
      SafePart(c, s, e, s', safe, tp, o);
    }
  }

  lemma SafeMore(s: Loop, safe: set<Task>, more: set<Task>)
    requires Safe(s, safe) && safe <= more
    ensures Safe(s, more)
  {
  }

  // ---- what workers have in hand ----

  /** The head of a queue belongs to an assignment that is held. */
  lemma ReleasedCurrent(c: Config, s: Loop, t: Task)
    requires Good(c, s) && t.tp in s.b.parts && t.tp in s.b.past
    ensures FinishedAt(c, s, t).f.running == s.f.running
    ensures forall u <- FinishedAt(c, s, t).f.work :: u in s.f.work || Current(s.b.parts, u)
  {
    hide PartsOk, BacklogOk, LinesOk, Tails, Generations, CommitOk, Apart, MarkedDone, Queued;
    var k, q := IdOf(c.keyOf, t), s.f.queues;
    if c.pooled && k in q && q[k] != [] {
      QueueOfKey(s.b.parts, s.b.past, Active(s.f), s.f.lines, q, c.keyOf, k, q[k][0]);
    }
  }

  lemma ResultHanded(c: Config, s: Loop, t: Task, s': Loop)
    requires Good(c, s) && DoResult(c, s, t, s')
    ensures forall u <- s'.f.work + s'.f.running :: u in s.f.work + s.f.running || Current(s'.b.parts, u)
  {
    hide Good, MarkedDone, ReleasedTo, Dropped;
    ResultHeld(c, s, t, s');
    if Current(s.b.parts, t) {
      GoodPast(c, s);
      ReleasedCurrent(c, s, t);
    }
  }

  /** A message comes to the workers only under an assignment that is held. */
  lemma HandedFrom(c: Config, s: Loop, e: Event, s': Loop)
    requires c.pooled && Good(c, s) && Next(c, s, e, s')
    ensures forall u <- s'.f.work + s'.f.running :: u in s.f.work + s.f.running || Current(s'.b.parts, u)
  {
    hide Good, DoResult, Dropped, Without;
    if e.Result? {
      ResultHanded(c, s, e.t, s');
    }
  }

  /** Before a message in hand, every delivery of its key is safe. */
  lemma FrontNow(c: Config, s: Loop, seen: set<Task>, safe: set<Task>, t: Task)
    requires Good(c, s) && Seen(s, seen) && Safe(s, safe)
    requires InHand(c, s, t) && Current(s.b.parts, t) && c.keyOf(t.tp, t.offset) != []
    ensures Front(c, seen, safe, t)
  {
    hide Good, InHand, Held;
    KeyOrder(c, s, t);
    assert Delivered(t.tp, s.b.parts[t.tp], s.b.past[t.tp], seen);
  }

  /** What is past stays past. */
  lemma FrontLater(c: Config, s: Loop, e: Event, s': Loop, seen: set<Task>, safe: set<Task>, safe': set<Task>, t: Task)
    requires Next(c, s, e, s') && Front(c, seen, safe, t) && safe <= safe' && !Current(s'.b.parts, t)
    ensures Front(c, seen + Arrival(s, e), safe', t)
  {
    hide DoResult;
  }

  /** Everything the workers have in hand was delivered, with all before it safe. */
  ghost predicate Fronts(c: Config, s: Loop, seen: set<Task>, safe: set<Task>) {
    forall t <- s.f.work + s.f.running :: c.keyOf(t.tp, t.offset) != [] ==> Front(c, seen, safe, t)
  }

  lemma FrontsKept(c: Config, s: Loop, e: Event, s': Loop, seen: set<Task>, safe: set<Task>)
    requires Good(c, s) && Good(c, s') && Next(c, s, e, s') && Seen(s, seen) && Safe(s, safe) && Fronts(c, s, seen, safe)
    ensures Fronts(c, s', seen + Arrival(s, e), safe + Reports(s, e))
  {
    hide Good, Next, Seen, Safe, Front;
    SeenKept(c, s, e, s', seen);
    SafeKept(c, s, e, s', safe);
    if c.pooled {
      HandedFrom(c, s, e, s');
      forall t <- s'.f.work + s'.f.running | c.keyOf(t.tp, t.offset) != []
        ensures Front(c, seen + Arrival(s, e), safe + Reports(s, e), t)
      {
        if Current(s'.b.parts, t) {
          FrontNow(c, s', seen + Arrival(s, e), safe + Reports(s, e), t);
        } else {
          FrontLater(c, s, e, s', seen, safe, safe + Reports(s, e), t);
        }
      }
    } else {
      NoWorkers(c, s');
    }
  }

  lemma FrontMore(c: Config, seen: set<Task>, safe: set<Task>, more: set<Task>, t: Task)
    requires Front(c, seen, safe, t) && safe <= more
    ensures Front(c, seen, more, t)
  {
  }

  // ---- what was committed had been reported ----

  ghost function AllReported(ss: seq<Loop>, es: seq<Event>, i: nat): set<Task>
    requires i <= |es| && i <= |ss|
  {
    if i == 0 then {} else AllReported(ss, es, i - 1) + Reports(ss[i - 1], es[i - 1])
  }

  /** At moment k a worker, or the loop itself with a single one, was done with this message:
      it had been handled, or was durable in the store. */
  ghost predicate ReportedAt(ss: seq<Loop>, es: seq<Event>, k: nat, t: Task) {
    && k < |ss| && k < |es|
    && match es[k]
       case Return(u, o) => u == t && o in {Done, Deferred, Parked}
       case RunHere(o) => ss[k].backlog != [] && ss[k].backlog[0] == t && o in {Done, Deferred, Parked}
       case _ => false
  }

  lemma {:induction false} FoundReport(ss: seq<Loop>, es: seq<Event>, i: nat, t: Task) returns (k: nat)
    requires i <= |es| && i <= |ss| && t in AllReported(ss, es, i)
    ensures k < i && ReportedAt(ss, es, k, t)
  {
    if t in Reports(ss[i - 1], es[i - 1]) {
      k := i - 1;
    } else {
      k := FoundReport(ss, es, i - 1, t);
    }
  }

  lemma {:induction false} RunReported(c: Config, ss: seq<Loop>, es: seq<Event>, i: nat)
    requires Run(c, ss, es) && i < |ss|
    ensures Safe(ss[i], AllReported(ss, es, i))
  {
    hide Good, Next, Reports;
    if i == 0 {
      IdleSafe();
    } else {
      hide Safe;
      RunReported(c, ss, es, i - 1);
      RunGood(c, ss, es, i);
      assert Next(c, ss[i - 1], es[i - 1], ss[i]);
      SafeKept(c, ss[i - 1], es[i - 1], ss[i], AllReported(ss, es, i - 1));
    }
  }

  lemma IdleSafe()
    ensures Safe(IDLE, {})
  {
  }

  /** Commit safety over whole runs: for every offset before a committed one, from the first of
      the assignment on, some earlier event reported that very message done or stored. */
  lemma CommittedReported(c: Config, ss: seq<Loop>, es: seq<Event>, i: nat, tp: TP, o: nat) returns (k: nat)
    requires Run(c, ss, es) && i < |ss| && tp in ss[i].b.committed && tp in ss[i].b.past && tp in ss[i].b.parts
    requires ss[i].b.past[tp].first <= o < ss[i].b.committed[tp]
    ensures k < i && ReportedAt(ss, es, k, Task(tp, o, ss[i].b.parts[tp].gen))
  {
    hide Good, Run, ReportedAt, AllReported;
    RunGood(c, ss, es, i);
    CommitSafe(c, ss[i], tp, o);
    RunReported(c, ss, es, i);
    RunLengths(c, ss, es);
    k := FoundReport(ss, es, i, Task(tp, o, ss[i].b.parts[tp].gen));
  }

  lemma RunLengths(c: Config, ss: seq<Loop>, es: seq<Event>)
    requires Run(c, ss, es)
    ensures |ss| == |es| + 1
  {
  }
}
