/** The Kafka consumer's running loop (kafka/consumer.go). One goroutine polls and owns
    all of this state; workers take messages and return results in any order. Each
    method is one step, so every run is a sequence of calls, and Valid, with all that
    ConsumerSteps proves of it, holds in every reachable state. */
module Consumer {
  import opened Records
  import opened ConsumerState
  import opened ConsumerPool
  import opened ConsumerLines
  import opened ConsumerSteps
  import Runs = ConsumerRuns

  class Consumer {
    const c: Config
    var parts: Parts
    var gen: nat
    var safe: map<TP, int>
    var committed: map<TP, int>
    var backlog: seq<Task>
    var queues: Queues
    var work: set<Task>
    var running: set<Task>
    var results: map<Task, Outcome>
    var inflight: int
    ghost var past: Pasts
    ghost var lines: Lines

    ghost function State(): Loop
      reads this
    {
      Loop(Book(parts, past, safe, committed, gen), backlog, Flight(queues, work, running, results, lines), inflight)
    }

    ghost predicate Valid()
      reads this
    {
      Good(c, State())
    }

    constructor (c: Config)
      ensures Valid() && this.c == c && parts == map[] && committed == map[]
    {
      this.c := c;
      parts, gen, safe, committed, backlog, queues := map[], 0, map[], map[], [], map[];
      work, running, results, inflight, past, lines := {}, {}, map[], 0, map[], map[];
      new;
      assert Pool(State().f) == {};
    }

    // ---- taking messages ----

    /** accept: exactly the next offset of a held partition, once. Anything else is dropped,
        and after a gap the client is told where to seek. */
    method Accept(tp: TP, offset: nat) returns (seek: Option<int>)
      requires Valid()
      modifies this`parts, this`backlog, this`past
      ensures Valid()
      ensures if tp in old(parts) && old(parts[tp].failedAt) < 0 && (old(parts[tp].next) < 0 || offset == old(parts[tp].next))
              then tp in old(past) && State() == Taken(old(State()), tp, offset) && seek == None
              else State() == old(State()) &&
                   seek == if tp in parts && parts[tp].failedAt < 0 && offset > parts[tp].next then Some(parts[tp].next) else None
    {
      hide Good;
      seek := None;
      if tp !in parts || parts[tp].failedAt >= 0 {
        return;
      }
      var p := parts[tp];
      if p.next >= 0 && offset != p.next {
        if offset > p.next {
          seek := Some(p.next);
        }
        return;
      }
      GoodPast(c, State());
      TakenGood(c, State(), tp, offset);
      past := past[tp := PastAccepted(p, past[tp], offset)];
      var frontier := if p.next < 0 then offset else p.frontier;
      parts := parts[tp := p.(next := offset + 1, frontier := frontier)];
      if offset !in p.completed {
        backlog := backlog + [Task(tp, offset, p.gen)];
      }
    }

    // ---- handing messages to workers ----

    /** send. */
    method Send(t: Task)
      requires Holding(c, State(), t) && c.pooled
      modifies this`queues, this`work, this`lines
      ensures Valid() && State() == old(State()).(f := SentTo(c.keyOf, old(State()).f, t))
    {
      hide Good, Holding;
      SentGood(c, State(), t);
      var k := IdOf(c.keyOf, t);
      if k.key != [] {
        lines := lines[k := LineOf(lines, k) + [t]];
        if k in queues {
          queues := queues[k := queues[k] + [t]];
          return;
        }
        queues := queues[k := []];
      }
      work := work + {t};
    }

    /** One turn of dispatchBacklog: the oldest message of the backlog starts, or waits
        behind its key, or is given up because its partition is about to be rewound. With
        one worker it runs right here, to the given outcome. */
    method DispatchOne(outcome: Outcome) returns (ok: bool, ghost es: seq<Runs.Event>)
      requires Valid() && backlog != [] && inflight < c.maxInFlight
      modifies this
      ensures ok ==> Valid() && committed == old(committed) && |backlog| < old(|backlog|)
      ensures Current(old(parts), old(backlog[0])) && (c.pooled ==> ok)
      ensures es == if old(parts[backlog[0].tp].failedAt) >= 0 then [Runs.GiveUp]
                    else if c.pooled then [Runs.Start] else [Runs.RunHere(outcome)]
      ensures ok ==> Runs.Path(c, old(State()), es, State())
    {
      hide Good, Holding, Settled, Runs.DoResult, Runs.Path;
      var t := backlog[0];
      ghost var s := State();
      GoodHead(c, s);
      es := [];
      if t.tp !in parts || parts[t.tp].gen != t.gen || parts[t.tp].failedAt >= 0 {
        GivenUpGood(c, s);
        backlog := backlog[1..];
        Runs.PathOne(c, s, Runs.GiveUp, State());
        return true, [Runs.GiveUp];
      }
      var p := parts[t.tp];
      StartedHolds(c, s);
      backlog := backlog[1..];
      parts := parts[t.tp := p.(inflight := p.inflight + 1)];
      inflight := inflight + 1;
      ok := true;
      if c.pooled {
        Send(t);
        Runs.PathOne(c, s, Runs.Start, State());
        es := [Runs.Start];
      } else {
        RanGood(c, State(), t, outcome);
        results := results[t := outcome];
        assert State() == Runs.Ran(s, outcome);
        ok := Complete(t);
        es := [Runs.RunHere(outcome)];
        if ok {
          Runs.PathOne(c, s, Runs.RunHere(outcome), State());
        }
      }
    }

    /** dispatchBacklog: turn by turn, until nothing waits or the limit is reached. */
    method DispatchBacklog(exec: Task -> Outcome) returns (ok: bool, ghost es: seq<Runs.Event>)
      requires Valid()
      modifies this
      ensures ok ==> Valid() && committed == old(committed) && (backlog == [] || inflight >= c.maxInFlight)
      ensures ok ==> Runs.Path(c, old(State()), es, State())
      ensures forall e <- es :: e.GiveUp? || e.Start? || e.RunHere?
    {
      hide Good, Runs.Next, Runs.Path;
      ok, es := true, [];
      Runs.PathNone(c, State());
      while ok && backlog != [] && inflight < c.maxInFlight
        invariant ok ==> Valid() && committed == old(committed) && Runs.Path(c, old(State()), es, State())
        invariant forall e <- es :: e.GiveUp? || e.Start? || e.RunHere?
        decreases ok, |backlog|
      {
        ghost var m, more := State(), [];
        ok, more := DispatchOne(exec(backlog[0]));
        if ok {
          Runs.PathConcat(c, old(State()), es, m, more, State());
        }
        es := es + more;
      }
    }

    /** A worker takes a message from the channel. Nothing earlier of its key is unfinished,
        and nothing else of its key runs. */
    method Take(t: Task)
      requires Valid() && t in work
      modifies this`work, this`running
      ensures Valid() && work == old(work) - {t} && running == old(running) + {t}
    {
      hide Good;
      PickedGood(c, State(), t);
      work, running := work - {t}, running + {t};
    }

    /** A worker is done with a message, one way or another. */
    method Return(t: Task, outcome: Outcome)
      requires Valid() && t in running
      modifies this`running, this`results
      ensures Valid() && running == old(running) - {t} && results == old(results)[t := outcome]
    {
      hide Good;
      ReturnedGood(c, State(), t, outcome);
      running, results := running - {t}, results[t := outcome];
    }

    // ---- results ----

    /** markDone: the message is safe, and the commit point moves over everything now
        finished without a gap. */
    method MarkDone(tp: TP, offset: nat)
      requires tp in parts
      modifies this`parts, this`safe
      ensures parts == old(parts)[tp := MarkedDone(old(parts[tp]), offset)]
      ensures safe == if parts[tp].frontier > old(parts[tp].frontier) then old(safe)[tp := parts[tp].frontier] else old(safe)
    {
      var p := parts[tp];
      p := p.(completed := p.completed + {offset});
      ghost var start := p;
      var advanced := false;
      while p.frontier >= 0 && p.frontier in p.completed
        invariant Advanced(p) == Advanced(start) && p.frontier >= start.frontier && (advanced <==> p.frontier > start.frontier)
        decreases p.completed
      {
        p := p.(completed := p.completed - {p.frontier}, frontier := p.frontier + 1);
        advanced := true;
      }
      if advanced {
        safe := safe[tp := p.frontier];
      }
      parts := parts[tp := p];
    }

    /** released: the next message waiting behind a finished one starts. */
    method Released(t: Task)
      modifies this`queues, this`work, this`lines
      ensures State() == old(State()).(f := ReleasedTo(c, old(State()).f, t))
    {
      var k := IdOf(c.keyOf, t);
      if k.key == [] || !c.pooled {
        return;
      }
      lines := MovedUp(lines, k);
      if k !in queues || queues[k] == [] {
        queues := queues - {k};
        return;
      }
      var next := queues[k][0];
      queues := queues[k := queues[k][1..]];
      work := work + {next};
    }

    /** rewind, if the partition failed and has drained. */
    method Settle(tp: TP)
      requires Settling(c, State(), tp) && tp in parts
      modifies this`parts, this`backlog
      ensures Valid() && State() == Settled(old(State()), tp)
    {
      hide Good, Settling, Dropped;
      SettledGood(c, State(), tp);
      var p := parts[tp];
      if p.failedAt >= 0 && p.inflight == 0 {
        DropBacklog({tp});
        parts := parts[tp := p.(next := p.frontier, failedAt := -1)];
      }
    }

    /** The backlog without some partitions' messages. */
    method DropBacklog(gone: set<TP>)
      modifies this`backlog
      ensures backlog == Dropped(old(backlog), gone)
    {
      hide Dropped;
      var kept, i := [], 0;
      assert backlog[0..] == backlog;
      while i < |backlog|
        invariant i <= |backlog| && backlog == old(backlog) && Dropped(backlog, gone) == kept + Dropped(backlog[i..], gone)
      {
        DroppedStep(backlog, i, gone);
        if backlog[i].tp !in gone {
          kept := kept + [backlog[i]];
        }
        i := i + 1;
      }
      DroppedStep(backlog, i, gone);
      assert kept + [] == kept;
      backlog := kept;
    }

    /** complete: a result of an earlier assignment moves nothing; one that is done or
        stored is recorded; one that failed is given up together with what waits behind its
        key, and the partition is rewound once nothing of it is in flight. */
    method Complete(t: Task) returns (ok: bool)
      requires Valid() && t in results
      modifies this
      ensures ok <==> !Current(old(parts), t) || old(results[t]) != Fatal
      ensures ok ==> Valid() && committed == old(committed)
      ensures ok ==> Runs.DoResult(c, old(State()), t, State())
      ensures ok ==> |backlog| <= old(|backlog|) && results.Keys == old(results).Keys - {t}
    {
      hide Good, Settling, Dropped, FinishedAt, FailedAt;
      var outcome := results[t];
      if t.tp !in parts || parts[t.tp].gen != t.gen {
        Ignore(t);
        return true;
      }
      if outcome == Fatal {
        return false;
      }
      GoodPast(c, State());
      ResultsAfter(c, State(), t);
      if Finished(outcome) {
        FinishOne(t);
      } else {
        FailOne(t);
      }
      DroppedShorter(backlog, {t.tp});
      Settle(t.tp);
      return true;
    }

    method Ignore(t: Task)
      requires Valid() && t in results && !Current(parts, t)
      modifies this`results, this`inflight
      ensures Valid() && State() == Ignored(old(State()), t)
    {
      hide Good;
      IgnoredGood(c, State(), t);
      results, inflight := results - {t}, inflight - 1;
    }

    method FinishOne(t: Task)
      requires Valid() && t in results && Current(parts, t) && t.tp in past
      modifies this
      ensures Settling(c, State(), t.tp) && State() == FinishedAt(c, old(State()), t) && t.tp in parts
    {
      hide Good, Settling, ReleasedTo, MarkedDone;
      FinishedSettles(c, State(), t);
      var p := parts[t.tp];
      results, inflight := results - {t}, inflight - 1;
      parts := parts[t.tp := p.(inflight := p.inflight - 1)];
      MarkDone(t.tp, t.offset);
      past := past[t.tp := Safer(past[t.tp], t.offset)];
      assert parts == old(parts)[t.tp := MarkedDone(p.(inflight := p.inflight - 1), t.offset)];
      Released(t);
      assert State() == FinishedAt(c, old(State()), t);
    }

    method FailOne(t: Task)
      requires Valid() && t in results && Current(parts, t)
      modifies this
      ensures Settling(c, State(), t.tp) && State() == FailedAt(c, old(State()), t) && t.tp in parts
    {
      hide Good, Settling;
      FailedSettles(c, State(), t);
      ghost var p, n := parts[t.tp], |Behind(c, State().f, t)|;
      DropBehind(t);
      Fail(t);
      assert parts == old(parts)[t.tp := Failed(p.(inflight := p.inflight - 1 - n), t.offset)];
      assert State() == FailedAt(c, old(State()), t);
    }

    /** dropQueued for one key: what waits behind a failed message never starts. */
    method DropBehind(t: Task)
      requires t.tp in parts
      modifies this`parts, this`queues, this`lines, this`inflight
      ensures var n, k := |Behind(c, old(State()).f, t)|, IdOf(c.keyOf, t);
              && queues == old(queues) - {k} && lines == old(lines) - {k} && inflight == old(inflight) - n
              && parts == old(parts)[t.tp := old(parts[t.tp]).(inflight := old(parts[t.tp].inflight) - n)]
    {
      var k, p := IdOf(c.keyOf, t), parts[t.tp];
      var q := if k.key != [] && k in queues then queues[k] else [];
      for i := 0 to |q|
        invariant inflight == old(inflight) - i && p == old(parts[t.tp]).(inflight := old(parts[t.tp].inflight) - i)
        invariant parts == old(parts) && queues == old(queues) && lines == old(lines)
      {
        inflight := inflight - 1;
        p := p.(inflight := p.inflight - 1);
      }
      parts := parts[t.tp := p];
      queues := queues - {k};
      lines := lines - {k};
    }

    /** noteFailure, and the result itself. */
    method Fail(t: Task)
      requires t.tp in parts
      modifies this`parts, this`results, this`inflight
      ensures results == old(results) - {t} && inflight == old(inflight) - 1
      ensures parts == old(parts)[t.tp := Failed(old(parts[t.tp]).(inflight := old(parts[t.tp].inflight) - 1), t.offset)]
    {
      var p := parts[t.tp];
      p := p.(inflight := p.inflight - 1);
      if p.failedAt < 0 || t.offset < p.failedAt {
        p := p.(failedAt := t.offset);
      }
      parts := parts[t.tp := p];
      results, inflight := results - {t}, inflight - 1;
    }

    /** drain: the results workers have produced so far, in any order. */
    method Drain() returns (ok: bool, ghost es: seq<Runs.Event>)
      requires Valid()
      modifies this
      ensures ok ==> Valid() && committed == old(committed) && results == map[]
      ensures ok ==> Runs.Path(c, old(State()), es, State()) && forall t <- old(results) :: Runs.Result(t) in es
      ensures forall e <- es :: e.Result?
    {
      hide Good, Runs.DoResult, Runs.Path;
      ok, es := true, [];
      Runs.PathNone(c, State());
      while ok && results.Keys != {}
        invariant ok ==> Valid() && committed == old(committed) && Runs.Path(c, old(State()), es, State())
        invariant forall e <- es :: e.Result?
        invariant ok ==> forall t <- old(results) :: t in results || Runs.Result(t) in es
        decreases ok, results.Keys
      {
        var t :| t in results.Keys;
        ghost var m := State();
        ok := Complete(t);
        if ok {
          Runs.PathOn(c, old(State()), es, m, Runs.Result(t), State());
        }
        es := es + [Runs.Result(t)];
      }
    }

    // ---- committing ----

    /** commit and commitPartitions: every safe offset past what was committed, if the
        broker takes them. */
    method Commit(only: set<TP>, taken: bool)
      requires Valid()
      modifies this`committed
      ensures Valid() && CommitsGrow(old(committed), committed)
      ensures State() == if taken then CommittedTo(old(State()), only) else old(State())
      ensures taken ==> forall tp <- only :: tp in safe ==> CommittedAtFrontier(State().b, tp)
      ensures forall tp: TP :: !taken || tp !in only || tp !in safe ==>
                (tp in committed <==> tp in old(committed)) && (tp in committed ==> committed[tp] == old(committed)[tp])
    {
      hide Good, CommittedAtFrontier;
      CommittedGood(c, State(), only);
      forall tp <- only | tp in safe ensures CommittedAtFrontier(CommittedTo(State(), only).b, tp) {
        CommitMeans(c, State(), only, tp);
        SafeIff(c, State(), tp);
      }
      if taken {
        committed := committed + map tp | tp in safe && tp in only && (tp !in committed || safe[tp] > committed[tp]) :: safe[tp];
      }
    }

    // ---- rebalancing ----

    /** onAssigned: each partition starts afresh, under a generation of its own. It was not
        held: a client revokes before it assigns again. */
    method OnAssigned(tps: seq<TP>)
      requires Valid() && (forall tp <- tps :: tp !in parts) && forall i, j :: 0 <= i < j < |tps| ==> tps[i] != tps[j]
      modifies this`parts, this`past, this`committed, this`gen
      ensures Valid() && gen == old(gen) + |tps| && parts.Keys == old(parts).Keys + (set tp | tp in tps)
      ensures Runs.Path(c, old(State()), Assigns(tps), State())
    {
      hide Good, Runs.Path, AssignedAt;
      Runs.PathNone(c, State());
      assert tps[..0] == [] && Assigns([]) == [];
      for i := 0 to |tps|
        invariant Valid() && gen == old(gen) + i && parts.Keys == old(parts).Keys + (set tp | tp in tps[..i])
        invariant Runs.Path(c, old(State()), Assigns(tps[..i]), State())
      {
        var tp := tps[i];
        ghost var m := State();
        assert tps[..i + 1] == tps[..i] + [tp];
        AssignedKeys(m, tp);
        AssignOne(tp);
        Runs.PathOn(c, old(State()), Assigns(tps[..i]), m, Runs.Assign(tp), State());
        assert Assigns(tps[..i + 1]) == Assigns(tps[..i]) + [Runs.Assign(tp)];
      }
      assert tps[..|tps|] == tps;
    }

    method AssignOne(tp: TP)
      requires Valid() && tp !in parts
      modifies this`parts, this`past, this`committed, this`gen
      ensures Valid() && State() == AssignedAt(old(State()), tp)
    {
      hide Good;
      AssignedGood(c, State(), tp);
      gen := gen + 1;
      parts := parts[tp := Part(-1, -1, -1, gen, {}, 0)];
      past := past[tp := Past(-1, {})];
      committed := committed - {tp};
    }

    /** dropQueued for one partition. */
    method DropQueues(tp: TP)
      requires Ordered(c, State().b, State().f)
      modifies this`queues, this`inflight
      ensures queues == Without(old(queues), {tp}) && inflight == old(inflight) - |Queued(old(queues)) - Queued(queues)|
    {
      hide Ordered, Queued;
      ghost var s := State();
      var todo := set k | k in queues && k.tp == tp;
      ghost var all := todo;
      assert Queued(queues) - Queued(queues) == {};
      while todo != {}
        invariant todo <= all && queues == old(queues) - (all - todo)
        invariant inflight == old(inflight) - |Queued(old(queues)) - Queued(queues)|
        decreases todo
      {
        var k :| k in todo;
        DropOne(c, s, queues, k);
        inflight := inflight - |queues[k]|;
        queues := queues - {k};
        todo := todo - {k};
      }
    }

    /** onRevoked for one partition, after its commit: everything of it goes but what
        workers are running. */
    method RevokeOne(tp: TP)
      requires Valid()
      modifies this
      ensures Valid() && State() == RevokedAt(old(State()), tp)
    {
      hide Good, Dropped, Ordered, Queued, Without;
      RevokedGood(c, State(), tp);
      GoodOrdered(c, State());
      DropQueues(tp);
      lines := Without(lines, {tp});
      parts, past, safe, committed := parts - {tp}, past - {tp}, safe - {tp}, committed - {tp};
      DropBacklog({tp});
    }

    /** onRevoked: what is safe is committed first, if the broker takes it. */
    method OnRevoked(tps: seq<TP>, taken: bool)
      requires Valid()
      modifies this
      ensures Valid() && parts.Keys == old(parts).Keys - (set tp | tp in tps)
      ensures Runs.Path(c, old(State()), (if taken then [Runs.Commit(set tp | tp in tps)] else []) + Revokes(tps), State())
    {
      hide Good, RevokedAt, CommittedTo, Runs.Path;
      var only := set tp | tp in tps;
      ghost var first := if taken then [Runs.Commit(only)] else [];
      Runs.PathNone(c, State());
      Commit(only, taken);
      if taken {
        Runs.PathOne(c, old(State()), Runs.Commit(only), State());
      }
      assert tps[..0] == [] && first + Revokes([]) == first;
      for i := 0 to |tps|
        invariant Valid() && parts.Keys == old(parts).Keys - (set tp | tp in tps[..i])
        invariant Runs.Path(c, old(State()), first + Revokes(tps[..i]), State())
      {
        ghost var m := State();
        assert tps[..i + 1] == tps[..i] + [tps[i]];
        RevokedKeys(m, tps[i]);
        RevokeOne(tps[i]);
        Runs.PathOn(c, old(State()), first + Revokes(tps[..i]), m, Runs.Revoke(tps[i]), State());
        assert first + Revokes(tps[..i + 1]) == first + Revokes(tps[..i]) + [Runs.Revoke(tps[i])];
      }
      assert tps[..|tps|] == tps;
    }
  }

  /** A queue's messages are in no other queue, so dropping it uncounts exactly them. */
  lemma DropOne(c: Config, s: Loop, cur: Queues, k: KeyId)
    requires Ordered(c, s.b, s.f) && k in cur && (forall x <- cur :: x in s.f.queues && cur[x] == s.f.queues[x])
    ensures |Queued(s.f.queues) - Queued(cur - {k})| == |Queued(s.f.queues) - Queued(cur)| + |cur[k]|
  {
    hide LinesOk, Tails;
    var all, q := Queued(s.f.queues), Members(cur[k]);
    QueueApart(s.b.parts, s.b.past, Active(s.f), s.f.lines, s.f.queues, c.keyOf, k);
    SplitQueued(cur, k);
    SplitQueued(s.f.queues, k);
    FewerQueued(cur, s.f.queues, k);
    hide Queued, Members, Ordered;
    DropSet(all, Queued(cur), Queued(cur - {k}), q);
  }

  lemma DropSet(all: set<Task>, a: set<Task>, b: set<Task>, q: set<Task>)
    requires a == b + q && b !! q && q <= all
    ensures |all - b| == |all - a| + |q|
  {
    assert all - b == (all - a) + q;
  }

  lemma FewerQueued(cur: Queues, queues: Queues, k: KeyId)
    requires forall x <- cur :: x in queues && cur[x] == queues[x]
    ensures Queued(cur - {k}) <= Queued(queues - {k})
  {
    forall u <- Queued(cur - {k}) ensures u in Queued(queues - {k}) {
      var x :| x in cur - {k} && u in cur[x];
      assert x in queues - {k} && u in (queues - {k})[x];
    }
  }

  ghost function Assigns(tps: seq<TP>): seq<Runs.Event> { seq(|tps|, i requires 0 <= i < |tps| => Runs.Assign(tps[i])) }

  ghost function Revokes(tps: seq<TP>): seq<Runs.Event> { seq(|tps|, i requires 0 <= i < |tps| => Runs.Revoke(tps[i])) }

  lemma AssignedKeys(s: Loop, tp: TP)
    ensures AssignedAt(s, tp).b.parts.Keys == s.b.parts.Keys + {tp} && AssignedAt(s, tp).b.gen == s.b.gen + 1
  {
  }

  lemma RevokedKeys(s: Loop, tp: TP)
    ensures RevokedAt(s, tp).b.parts.Keys == s.b.parts.Keys - {tp}
  {
  }

  lemma ResultsAfter(c: Config, s: Loop, t: Task)
    requires t.tp in s.b.parts && t.tp in s.b.past
    ensures FinishedAt(c, s, t).f.results == FailedAt(c, s, t).f.results == s.f.results - {t}
    ensures FinishedAt(c, s, t).backlog == FailedAt(c, s, t).backlog == s.backlog
    ensures FinishedAt(c, s, t).b.committed == FailedAt(c, s, t).b.committed == s.b.committed
  {
    hide MarkedDone;
  }

  lemma {:induction false} DroppedShorter(backlog: seq<Task>, gone: set<TP>)
    ensures |Dropped(backlog, gone)| <= |backlog|
  {
    if backlog != [] {
      DroppedShorter(backlog[1..], gone);
    }
  }

  lemma GoodOrdered(c: Config, s: Loop)
    requires Good(c, s)
    ensures Ordered(c, s.b, s.f)
  {
  }
}
