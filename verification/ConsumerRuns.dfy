/** Whole runs of the consumer: polls, worker results in any order, failures, rewinds,
    rebalances and commits. */
module ConsumerRuns {
  import opened ConsumerState
  import opened ConsumerPool
  import opened ConsumerLines
  import opened ConsumerSteps

  datatype Event =
    | Accept(tp: TP, offset: nat)  // a polled message is the next of its partition
    | GiveUp                       // the oldest waiting message's partition is to be rewound
    | Start                        // the oldest waiting message goes to the workers or its key
    | RunHere(o: Outcome)          // with a single worker it runs at once, and the loop takes the result
    | Pick(t: Task)                // a worker takes a message
    | Return(t: Task, o: Outcome)  // and is done with it
    | Result(t: Task)              // the loop takes the result
    | Revoke(tp: TP)
    | Assign(tp: TP)
    | Commit(only: set<TP>)        // the broker takes the offsets of these partitions

  const IDLE := Loop(Book(map[], map[], map[], map[], 0), [], Flight(map[], {}, {}, map[], map[]), 0)

  /** The oldest waiting message may start. */
  ghost predicate CanStart(c: Config, s: Loop) {
    && s.backlog != [] && s.inflight < c.maxInFlight && Current(s.b.parts, s.backlog[0])
    && s.b.parts[s.backlog[0].tp].failedAt < 0
  }

  /** The oldest waiting message has run. */
  function Ran(s: Loop, o: Outcome): Loop
    requires s.backlog != [] && s.backlog[0].tp in s.b.parts
  {
    Started(s).(f := s.f.(results := s.f.results[s.backlog[0] := o]))
  }

  ghost predicate DoResult(c: Config, s: Loop, t: Task, s': Loop) {
    && t in s.f.results
    && if !Current(s.b.parts, t) then s' == Ignored(s, t)
       else
         && s.f.results[t] != Fatal && t.tp in s.b.past
         && s' == Settled(if Finished(s.f.results[t]) then FinishedAt(c, s, t) else FailedAt(c, s, t), t.tp)
  }

  ghost predicate Next(c: Config, s: Loop, e: Event, s': Loop) {
    match e
    case Accept(tp, o) =>
      && tp in s.b.parts && tp in s.b.past && s.b.parts[tp].failedAt < 0
      && (s.b.parts[tp].next >= 0 ==> o == s.b.parts[tp].next) && s' == Taken(s, tp, o)
    case GiveUp =>
      && s.backlog != [] && Current(s.b.parts, s.backlog[0]) && s.b.parts[s.backlog[0].tp].failedAt >= 0
      && s' == s.(backlog := s.backlog[1..])
    case Start => CanStart(c, s) && c.pooled && s' == Started(s).(f := SentTo(c.keyOf, Started(s).f, s.backlog[0]))
    case RunHere(o) => CanStart(c, s) && !c.pooled && DoResult(c, Ran(s, o), s.backlog[0], s')
    case Pick(t) => t in s.f.work && s' == s.(f := s.f.(work := s.f.work - {t}, running := s.f.running + {t}))
    case Return(t, o) =>
      t in s.f.running && s' == s.(f := s.f.(running := s.f.running - {t}, results := s.f.results[t := o]))
    case Result(t) => DoResult(c, s, t, s')
    case Revoke(tp) => s' == RevokedAt(s, tp)
    case Assign(tp) => tp !in s.b.parts && s' == AssignedAt(s, tp)
    case Commit(only) => s' == CommittedTo(s, only)
  }

  /** The events es lead from s to t. */
  ghost predicate Path(c: Config, s: Loop, es: seq<Event>, t: Loop) {
    if es == [] then s == t
    else
      var before, last := es[..|es| - 1], es[|es| - 1];
      exists m :: Path(c, s, before, m) && Next(c, m, last, t)
  }

  lemma PathOne(c: Config, s: Loop, e: Event, t: Loop)
    requires Next(c, s, e, t)
    ensures Path(c, s, [e], t)
  {
    PathOn(c, s, [], s, e, t);
    assert [] + [e] == [e];
  }

  lemma PathNone(c: Config, s: Loop)
    ensures Path(c, s, [], s)
  {
  }

  lemma {:induction false} PathConcat(c: Config, s: Loop, es: seq<Event>, m: Loop, fs: seq<Event>, t: Loop)
    requires Path(c, s, es, m) && Path(c, m, fs, t)
    ensures Path(c, s, es + fs, t)
  {
    hide Next;
    if fs == [] {
      assert es + fs == es;
    } else {
      var n := |fs| - 1;
      var k :| Path(c, m, fs[..n], k) && Next(c, k, fs[n], t);
      PathConcat(c, s, es, m, fs[..n], k);
      assert es + fs == es + fs[..n] + [fs[n]];
      PathOn(c, s, es + fs[..n], k, fs[n], t);
    }
  }

  lemma PathOn(c: Config, s: Loop, es: seq<Event>, m: Loop, e: Event, t: Loop)
    requires Path(c, s, es, m) && Next(c, m, e, t)
    ensures Path(c, s, es + [e], t)
  {
    assert (es + [e])[..|es|] == es;
  }

  ghost predicate Run(c: Config, ss: seq<Loop>, es: seq<Event>) {
    && |ss| == |es| + 1 && ss[0] == IDLE
    && forall i, j :: 0 <= i && j == i + 1 <= |es| ==> Next(c, ss[i], es[i], ss[j])
  }

  lemma ResultGood(c: Config, s: Loop, t: Task, s': Loop)
    requires Good(c, s) && DoResult(c, s, t, s')
    ensures Good(c, s')
  {
    hide Good, Settling, FinishedAt, FailedAt, Settled;
    if !Current(s.b.parts, t) {
      IgnoredGood(c, s, t);
    } else if Finished(s.f.results[t]) {
      FinishedSettles(c, s, t);
      PartStays(c, s, t);
      SettledGood(c, FinishedAt(c, s, t), t.tp);
    } else {
      FailedSettles(c, s, t);
      PartStays(c, s, t);
      SettledGood(c, FailedAt(c, s, t), t.tp);
    }
  }

  lemma PartStays(c: Config, s: Loop, t: Task)
    requires t.tp in s.b.parts && t.tp in s.b.past
    ensures FinishedAt(c, s, t).b.parts.Keys == FailedAt(c, s, t).b.parts.Keys == s.b.parts.Keys
  {
  }

  lemma NextGood(c: Config, s: Loop, e: Event, s': Loop)
    requires Good(c, s) && Next(c, s, e, s')
    ensures Good(c, s')
  {
    hide Good, Taken, Started, SentTo, RevokedAt, AssignedAt, CommittedTo, DoResult, Holding;
    match e
    case Accept(tp, o) => TakenGood(c, s, tp, o);
    case GiveUp => GivenUpGood(c, s);
    case Start =>
      StartedHolds(c, s);
      SentGood(c, Started(s), s.backlog[0]);
    case RunHere(o) =>
      StartedHolds(c, s);
      StartedFlight(s);
      RanGood(c, Started(s), s.backlog[0], o);
      ResultGood(c, Ran(s, o), s.backlog[0], s');
    case Pick(t) => PickedGood(c, s, t);
    case Return(t, o) => ReturnedGood(c, s, t, o);
    case Result(t) => ResultGood(c, s, t, s');
    case Revoke(tp) => RevokedGood(c, s, tp);
    case Assign(tp) => AssignedGood(c, s, tp);
    case Commit(only) => CommittedGood(c, s, only);
  }

  lemma StartedFlight(s: Loop)
    requires s.backlog != [] && s.backlog[0].tp in s.b.parts
    ensures Started(s).f == s.f
  {
  }

  lemma IdleGood(c: Config)
    ensures Good(c, IDLE)
  {
    assert Pool(IDLE.f) == {};
  }

  /** What Good says holds in every reachable state. */
  lemma {:induction false} RunGood(c: Config, ss: seq<Loop>, es: seq<Event>, i: nat)
    requires Run(c, ss, es) && i < |ss|
    ensures Good(c, ss[i])
  {
    hide Good, Next;
    if i == 0 {
      IdleGood(c);
    } else {
      RunGood(c, ss, es, i - 1);
      NextGood(c, ss[i - 1], es[i - 1], ss[i]);
    }
  }

  /** Over every run: no commit passes an offset that is neither done nor stored, no
      accepted offset is lost, and a pending rewind has work in flight that brings it on. */
  lemma RunSafe(c: Config, ss: seq<Loop>, es: seq<Event>, i: nat, tp: TP, o: nat)
    requires Run(c, ss, es) && i < |ss| && tp in ss[i].b.parts
    ensures tp in ss[i].b.past && |ss[i].f.work| <= c.maxInFlight
    ensures var s := ss[i];
            var p, first, safe := s.b.parts[tp], s.b.past[tp].first, s.b.past[tp].safe;
            && (tp in s.b.committed ==> s.b.committed[tp] <= p.frontier)
            && (tp in s.b.committed && first <= o < s.b.committed[tp] ==> o in safe)
            && (p.next >= 0 && first <= o < p.next && o !in safe ==>
                  || Task(tp, o, p.gen) in s.backlog || Task(tp, o, p.gen) in Pool(s.f)
                  || (p.failedAt >= 0 && p.frontier <= o && exists u :: u in Pool(s.f) && u.tp == tp && u.gen == p.gen))
  {
    hide Good, Run, Pool;
    var s := ss[i];
    RunGood(c, ss, es, i);
    GoodPast(c, s);
    WorkFits(c, s);
    if tp in s.b.committed {
      CommitSafe(c, s, tp, o);
    }
    if s.b.parts[tp].next >= 0 && s.b.past[tp].first <= o < s.b.parts[tp].next && o !in s.b.past[tp].safe {
      NoneLost(c, s, tp, o);
    }
  }

  /** With a single worker nothing stays in flight from one event to the next. */
  lemma NextAlone(c: Config, s: Loop, e: Event, s': Loop)
    requires !c.pooled && Good(c, s) && s.f.results == map[] && Next(c, s, e, s')
    ensures s'.f.results == map[]
  {
    hide Good, Dropped, Without, Queued, SentTo, DoResult;
    NoWorkers(c, s);
    if e.RunHere? {
      ResultTaken(c, Ran(s, e.o), s.backlog[0], s');
    } else if e.Result? {
      ResultTaken(c, s, e.t, s');
    }
  }

  lemma ResultTaken(c: Config, s: Loop, t: Task, s': Loop)
    requires DoResult(c, s, t, s')
    ensures s'.f.results == s.f.results - {t}
  {
    hide MarkedDone, Dropped;
  }

  lemma NoWorkers(c: Config, s: Loop)
    requires !c.pooled && Good(c, s)
    ensures s.f.queues == map[] && s.f.work == {} && s.f.running == {}
  {
  }

  lemma {:induction false} RunAlone(c: Config, ss: seq<Loop>, es: seq<Event>, i: nat)
    requires Run(c, ss, es) && i < |ss| && !c.pooled
    ensures ss[i].f.results == map[]
  {
    hide Good, Next;
    if i > 0 {
      RunAlone(c, ss, es, i - 1);
      RunGood(c, ss, es, i - 1);
      NextAlone(c, ss[i - 1], es[i - 1], ss[i]);
    }
  }

  /** What a worker holds at a moment of a run, or what the loop is about to run itself. */
  ghost predicate AtWork(c: Config, s: Loop, t: Task) {
    if c.pooled then t in s.f.work + s.f.running else CanStart(c, s) && t == s.backlog[0]
  }

  /** Over every run, with any number of workers: a message with a key runs only once every
      earlier one of its key is done or stored, and alone. */
  lemma RunOrdered(c: Config, ss: seq<Loop>, es: seq<Event>, i: nat, t: Task, o: nat)
    requires Run(c, ss, es) && i < |ss| && AtWork(c, ss[i], t)
    requires Current(ss[i].b.parts, t) && IdOf(c.keyOf, t).key != []
    ensures var s := ss[i];
            && t.tp in s.b.past && s.f.work !! s.f.running
            && (s.b.past[t.tp].first <= o < t.offset && c.keyOf(t.tp, o) == c.keyOf(t.tp, t.offset) ==>
                  o in s.b.past[t.tp].safe)
            && (forall u :: AtWork(c, s, u) && Current(s.b.parts, u) && IdOf(c.keyOf, u) == IdOf(c.keyOf, t) ==> u == t)
  {
    hide Run, PartsOk, LinesOk, Tails, Pool, Active, Queued;
    RunGood(c, ss, es, i);
    if !c.pooled {
      RunAlone(c, ss, es, i);
    }
    assert forall u :: AtWork(c, ss[i], u) ==> InHand(c, ss[i], u);
    KeyOrder(c, ss[i], t);
  }

  // ---- commits ----

  lemma CommitStays(c: Config, s: Loop, e: Event, s': Loop, tp: TP)
    requires Good(c, s) && Next(c, s, e, s') && tp in s.b.committed && e != Revoke(tp) && e != Assign(tp)
    ensures tp in s'.b.committed && s.b.committed[tp] <= s'.b.committed[tp]
  {
    hide Good, MarkedDone, Dropped, SentTo, Without, Queued, ReleasedTo;
    if e.Commit? {
      CommittedGood(c, s, e.only);
    }
  }

  /** Within one assignment the committed offset never goes down. */
  lemma {:induction false} CommitsNeverFall(c: Config, ss: seq<Loop>, es: seq<Event>, i: nat, j: nat, tp: TP)
    requires Run(c, ss, es) && i <= j < |ss| && tp in ss[i].b.committed
    requires forall k :: i <= k < j ==> es[k] != Revoke(tp) && es[k] != Assign(tp)
    ensures tp in ss[j].b.committed && ss[i].b.committed[tp] <= ss[j].b.committed[tp]
    decreases j - i
  {
    hide Good, Next;
    if i < j {
      CommitsNeverFall(c, ss, es, i, j - 1, tp);
      RunGood(c, ss, es, j - 1);
      CommitStays(c, ss[j - 1], es[j - 1], ss[j], tp);
    }
  }

  /** A commit commits: in every run, once the broker has taken one, each of its partitions
      whose frontier has passed the first offset of the assignment is committed at the first
      offset that is neither done nor stored, and no other partition's committed offset has
      changed. */
  lemma RunCommits(c: Config, ss: seq<Loop>, es: seq<Event>, i: nat, tp: TP)
    requires Run(c, ss, es) && i < |es| && es[i].Commit?
    ensures var b, b' := ss[i].b, ss[i + 1].b;
            && (tp in es[i].only && tp in b.parts && tp in b.past && b.past[tp].first < b.parts[tp].frontier ==>
                 CommittedAtFrontier(b', tp))
            && (tp !in es[i].only ==>
                 (tp in b'.committed <==> tp in b.committed) && (tp in b.committed ==> b'.committed[tp] == b.committed[tp]))
  {
    hide Good, CommittedAtFrontier, CommittedTo;
    RunGood(c, ss, es, i);
    assert Next(c, ss[i], es[i], ss[i + 1]);
    CommitMeans(c, ss[i], es[i].only, tp);
  }
}
