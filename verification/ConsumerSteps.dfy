/** The steps of the consumer's loop as functions of its whole state, and what each of
    them keeps. Consumer carries them out. */
module ConsumerSteps {
  import opened ConsumerState
  import opened ConsumerPool
  import opened ConsumerLines

  datatype Config = Config(
    maxInFlight: nat,
    pooled: bool,  // more than one worker
    keyOf: KeyOf)  // the order key of every message in the log

  /** Partitions, progress and commits. past is history: what each assignment has seen. */
  datatype Book = Book(parts: Parts, past: Pasts, safe: map<TP, int>, committed: map<TP, int>, gen: nat)

  /** Everything in flight: behind its key, in the channel to the workers, taken by one, or
      in the channel back. lines is each busy key's queue with the message it waits for. */
  datatype Flight = Flight(queues: Queues, work: set<Task>, running: set<Task>, results: map<Task, Outcome>, lines: Lines)

  datatype Loop = Loop(b: Book, backlog: seq<Task>, f: Flight, inflight: int)

  /** Started or about to be. */
  ghost function Active(f: Flight): set<Task> { f.work + f.running + f.results.Keys }

  ghost function Pool(f: Flight): set<Task> { Active(f) + Queued(f.queues) }

  /** A message is in one place at a time, so no two executions of it overlap. */
  ghost predicate Apart(f: Flight) {
    f.work !! f.running && f.work + f.running !! f.results.Keys && Active(f) !! Queued(f.queues)
  }

  ghost predicate Ordered(c: Config, b: Book, f: Flight) {
    if c.pooled then LinesOk(b.parts, b.past, Active(f), f.lines, c.keyOf) && Tails(f.queues, f.lines)
    else f.queues == map[] && f.work == {} && f.running == {}
  }

  ghost predicate Generations(parts: Parts, pool: set<Task>, gen: nat) {
    (forall t <- pool :: t.gen <= gen) && (forall tp <- parts :: parts[tp].gen <= gen)
  }

  /** There is something to commit once the frontier has moved past the first offset. It is
      the frontier, and nothing beyond it has been committed. */
  ghost predicate CommitOk(b: Book) {
    && (forall tp <- b.parts :: tp in b.past ==> (tp in b.safe <==> b.past[tp].first < b.parts[tp].frontier))
    && (forall tp <- b.safe :: tp in b.parts && b.parts[tp].next >= 0 && b.safe[tp] == b.parts[tp].frontier)
    && (forall tp <- b.committed :: tp in b.safe && b.committed[tp] <= b.safe[tp])
  }

  /** All but the partitions: what every intermediate state keeps too. pool is what the
      counters are about. */
  ghost predicate Sound(c: Config, s: Loop, pool: set<Task>) {
    && BacklogOk(s.b.parts, s.backlog) && Apart(s.f) && s.inflight == |pool| <= c.maxInFlight && Ordered(c, s.b, s.f)
    && Generations(s.b.parts, pool, s.b.gen) && CommitOk(s.b)
  }

  /** What holds in every reachable state of the running loop. */
  ghost predicate Good(c: Config, s: Loop) {
    PartsOk(s.b.parts, s.b.past, Pool(s.f), s.backlog) && Sound(c, s, Pool(s.f))
  }

  // ---- accepting ----

  function Taken(s: Loop, tp: TP, o: nat): Loop
    requires tp in s.b.parts && tp in s.b.past
  {
    var p := s.b.parts[tp];
    s.(b := s.b.(parts := s.b.parts[tp := Accepted(p, o)], past := s.b.past[tp := PastAccepted(p, s.b.past[tp], o)]),
       backlog := if o in p.completed then s.backlog else s.backlog + [Task(tp, o, p.gen)])
  }

  lemma GoodPast(c: Config, s: Loop)
    requires Good(c, s)
    ensures s.b.past.Keys == s.b.parts.Keys
  {
  }

  lemma TakenCommits(s: Loop, tp: TP, o: nat, pool: set<Task>)
    requires CommitOk(s.b) && Generations(s.b.parts, pool, s.b.gen) && tp in s.b.parts && tp in s.b.past
    ensures CommitOk(Taken(s, tp, o).b) && Generations(Taken(s, tp, o).b.parts, pool, s.b.gen)
  {
  }

  lemma CountedCommits(b: Book, tp: TP, n: int)
    requires CommitOk(b) && tp in b.parts
    ensures CommitOk(WithPart(b, tp, b.parts[tp].(inflight := n)))
  {
  }

  lemma TakenGood(c: Config, s: Loop, tp: TP, o: nat)
    requires Good(c, s) && tp in s.b.parts && tp in s.b.past
    requires s.b.parts[tp].failedAt < 0 && (s.b.parts[tp].next >= 0 ==> o == s.b.parts[tp].next)
    ensures Good(c, Taken(s, tp, o))
  {
    hide PartsOk, BacklogOk, LinesOk, Tails, Apart, Queued, CommitOk, Generations;
    var pool := Pool(s.f);
    TakenCommits(s, tp, o, pool);
    AcceptParts(s.b.parts, s.b.past, pool, s.backlog, tp, o);
    if c.pooled {
      AcceptLines(s.b.parts, s.b.past, pool, s.backlog, Active(s.f), s.f.lines, c.keyOf, tp, o);
    }
  }

  lemma AcceptLines(parts: Parts, past: Pasts, pool: set<Task>, backlog: seq<Task>, active: set<Task>, lines: Lines,
      keyOf: KeyOf, tp: TP, o: nat)
    requires PartsOk(parts, past, pool, backlog) && tp in parts && active <= pool && LinesOk(parts, past, active, lines, keyOf)
    ensures LinesOk(parts[tp := Accepted(parts[tp], o)], past[tp := PastAccepted(parts[tp], past[tp], o)], active, lines, keyOf)
  {
    var p := parts[tp];
    forall k <- lines ensures k.tp in past && (k.tp == tp ==> p.next >= 0) {
      assert KeyOk(parts, past, active, lines[k], k, keyOf);
      var t := lines[k][0];
      assert t in lines[k] && t in active && Current(parts, t);
      if k.tp == tp {
        MineIn(pool, t);
        assert PartOk(p, past[tp], Mine(pool, tp, p.gen), Waiting(backlog, tp));
      }
    }
    LinesFrame(parts, past, parts[tp := Accepted(p, o)], past[tp := PastAccepted(p, past[tp], o)], active, lines, keyOf);
  }

  // ---- starting ----

  /** A message is counted in flight and not yet anywhere. */
  ghost predicate Holding(c: Config, s: Loop, t: Task) {
    && PartsOk(s.b.parts, s.b.past, Pool(s.f) + {t}, s.backlog) && Sound(c, s, Pool(s.f) + {t})
    && t !in Pool(s.f) && Current(s.b.parts, t) && t.tp in s.b.past
    && (c.pooled && IdOf(c.keyOf, t).key != [] ==> Preceded(LineOf(s.f.lines, IdOf(c.keyOf, t)), t, s.b.past[t.tp], c.keyOf))
  }

  function WithPart(b: Book, tp: TP, p: Part): Book { b.(parts := b.parts[tp := p]) }

  /** The oldest message of the backlog is counted, or given up if its partition is about
      to be rewound. */
  function Started(s: Loop): Loop
    requires s.backlog != [] && s.backlog[0].tp in s.b.parts
  {
    var p := s.b.parts[s.backlog[0].tp];
    s.(b := WithPart(s.b, s.backlog[0].tp, p.(inflight := p.inflight + 1)), backlog := s.backlog[1..], inflight := s.inflight + 1)
  }

  lemma GoodHead(c: Config, s: Loop)
    requires Good(c, s) && s.backlog != []
    ensures Current(s.b.parts, s.backlog[0])
  {
    assert s.backlog[0] in s.backlog;
  }

  lemma GivenUpGood(c: Config, s: Loop)
    requires Good(c, s) && s.backlog != [] && Current(s.b.parts, s.backlog[0]) && s.b.parts[s.backlog[0].tp].failedAt >= 0
    ensures Good(c, s.(backlog := s.backlog[1..]))
  {
    hide PartsOk, BacklogOk, LinesOk, Tails, Apart, Queued, CommitOk, Generations;
    DispatchParts(s.b.parts, s.b.past, Pool(s.f), s.backlog);
  }

  /** Only generations matter outside the partitions. */
  lemma Recounted(c: Config, s: Loop, b: Book, pool: set<Task>)
    requires Ordered(c, s.b, s.f) && Generations(s.b.parts, pool, s.b.gen)
    requires b.past == s.b.past && b.gen == s.b.gen && b.parts.Keys == s.b.parts.Keys
             && forall tp <- b.parts :: b.parts[tp].gen == s.b.parts[tp].gen
    ensures Ordered(c, b, s.f) && Generations(b.parts, pool, b.gen)
  {
    hide LinesOk, Tails;
    if c.pooled {
      LinesKnown(s.b.parts, s.b.past, Active(s.f), s.f.lines, c.keyOf);
      LinesFrame(s.b.parts, s.b.past, b.parts, b.past, Active(s.f), s.f.lines, c.keyOf);
    }
  }

  lemma LinesKnown(parts: Parts, past: Pasts, active: set<Task>, lines: Lines, keyOf: KeyOf)
    requires LinesOk(parts, past, active, lines, keyOf)
    ensures forall k <- lines :: k.tp in past
  {
    forall k <- lines ensures k.tp in past {
      assert KeyOk(parts, past, active, lines[k], k, keyOf);
    }
  }

  lemma StartedHolds(c: Config, s: Loop)
    requires Good(c, s) && s.backlog != [] && s.inflight < c.maxInFlight && Current(s.b.parts, s.backlog[0])
    requires s.b.parts[s.backlog[0].tp].failedAt < 0
    ensures Holding(c, Started(s), s.backlog[0])
  {
    hide PartsOk, BacklogOk, LinesOk, Tails, Apart, Queued, Preceded, Generations, CommitOk;
    var t, pool := s.backlog[0], Pool(s.f);
    var b := Started(s).b;
    CountedCommits(s.b, t.tp, s.b.parts[t.tp].inflight + 1);
    GoodPast(c, s);
    if c.pooled && IdOf(c.keyOf, t).key != [] {
      DispatchOrder(s.b.parts, s.b.past, pool, s.backlog, Active(s.f), s.f.lines, s.f.queues, c.keyOf);
    }
    DispatchParts(s.b.parts, s.b.past, pool, s.backlog);
    GenerationsAdd(s.b.parts, pool, s.b.gen, t);
    Recounted(c, s, b, pool + {t});
  }

  lemma GenerationsAdd(parts: Parts, pool: set<Task>, gen: nat, t: Task)
    requires Generations(parts, pool, gen) && Current(parts, t)
    ensures Generations(parts, pool + {t}, gen)
  {
  }

  // ---- sending ----

  /** send: a message whose key is busy waits in line behind it. */
  function SentTo(keyOf: KeyOf, f: Flight, t: Task): Flight {
    var k := IdOf(keyOf, t);
    if k.key == [] then f.(work := f.work + {t})
    else if k in f.queues then f.(queues := f.queues[k := f.queues[k] + [t]], lines := f.lines[k := LineOf(f.lines, k) + [t]])
    else f.(queues := f.queues[k := []], lines := f.lines[k := LineOf(f.lines, k) + [t]], work := f.work + {t})
  }

  lemma QueueJoins(queues: Queues, k: KeyId, t: Task)
    ensures k in queues ==> Queued(queues[k := queues[k] + [t]]) == Queued(queues) + {t}
    ensures k !in queues ==> Queued(queues[k := []]) == Queued(queues)
  {
    var q := if k in queues then queues[k] + [t] else [];
    var queues' := queues[k := q];
    SplitQueued(queues', k);
    assert queues' - {k} == queues - {k};
    if k in queues {
      SplitQueued(queues, k);
      assert Members(q) == Members(queues[k]) + {t};
    } else {
      assert queues - {k} == queues;
    }
  }

  lemma TailsJoin(queues: Queues, lines: Lines, k: KeyId, t: Task)
    requires Tails(queues, lines)
    ensures k in lines <==> k in queues
    ensures k in queues ==> Tails(queues[k := queues[k] + [t]], lines[k := LineOf(lines, k) + [t]])
    ensures k !in queues ==> Tails(queues[k := []], lines[k := LineOf(lines, k) + [t]])
  {
    if k in queues {
      assert (lines[k] + [t])[1..] == lines[k][1..] + [t];
    }
  }

  /** A message joins the work channel, and a queue may change. */
  lemma JoinsWork(f: Flight, t: Task, f': Flight)
    requires Apart(f) && t !in Pool(f) && Queued(f'.queues) == Queued(f.queues)
    requires f' == f.(work := f.work + {t}, queues := f'.queues, lines := f'.lines)
    ensures Apart(f') && Active(f') == Active(f) + {t} && Pool(f') == Pool(f) + {t}
  {
    hide Queued;
  }

  lemma JoinsQueue(f: Flight, t: Task, f': Flight)
    requires Apart(f) && t !in Pool(f) && Queued(f'.queues) == Queued(f.queues) + {t}
    requires f' == f.(queues := f'.queues, lines := f'.lines)
    ensures Apart(f') && Active(f') == Active(f) && Pool(f') == Pool(f) + {t}
  {
    hide Queued;
  }

  lemma SentGood(c: Config, s: Loop, t: Task)
    requires Holding(c, s, t) && c.pooled
    ensures Good(c, s.(f := SentTo(c.keyOf, s.f, t))) && Pool(SentTo(c.keyOf, s.f, t)) == Pool(s.f) + {t}
  {
    hide PartsOk, BacklogOk, LinesOk, Tails, Queued, Preceded, Generations, CommitOk, Active, Pool, Apart;
    var k, f := IdOf(c.keyOf, t), SentTo(c.keyOf, s.f, t);
    SendLines(s.b.parts, s.b.past, Active(s.f), s.f.lines, c.keyOf, t);
    TailsJoin(s.f.queues, s.f.lines, k, t);
    QueueJoins(s.f.queues, k, t);
    if k.key != [] && k in s.f.queues {
      JoinsQueue(s.f, t, f);
    } else {
      JoinsWork(s.f, t, f);
    }
  }

  /** With one worker the message runs at once. */
  lemma RanGood(c: Config, s: Loop, t: Task, o: Outcome)
    requires Holding(c, s, t) && !c.pooled
    ensures Good(c, s.(f := s.f.(results := s.f.results[t := o])))
  {
    hide PartsOk, BacklogOk, Queued, Generations, CommitOk, Apart, Active, Pool;
    JoinsResults(s.f, t, o);
  }

  lemma JoinsResults(f: Flight, t: Task, o: Outcome)
    requires Apart(f) && t !in Pool(f)
    ensures var g := f.(results := f.results[t := o]); Apart(g) && Pool(g) == Pool(f) + {t}
  {
    hide Queued;
  }

  // ---- workers ----

  lemma Moves(f: Flight, t: Task, f': Flight)
    requires Apart(f) && f'.queues == f.queues
    requires || (t in f.work && f' == f.(work := f.work - {t}, running := f.running + {t}))
             || (t in f.running && t in f'.results && f' == f.(running := f.running - {t}, results := f.results[t := f'.results[t]]))
    ensures Apart(f') && Active(f') == Active(f) && Pool(f') == Pool(f)
  {
    hide Queued;
  }

  lemma PickedGood(c: Config, s: Loop, t: Task)
    requires Good(c, s) && t in s.f.work
    ensures Good(c, s.(f := s.f.(work := s.f.work - {t}, running := s.f.running + {t})))
  {
    hide PartsOk, BacklogOk, LinesOk, Tails, Queued, Generations, CommitOk, Active, Pool, Apart;
    Moves(s.f, t, s.f.(work := s.f.work - {t}, running := s.f.running + {t}));
  }

  lemma ReturnedGood(c: Config, s: Loop, t: Task, o: Outcome)
    requires Good(c, s) && t in s.f.running
    ensures Good(c, s.(f := s.f.(running := s.f.running - {t}, results := s.f.results[t := o])))
  {
    hide PartsOk, BacklogOk, LinesOk, Tails, Queued, Generations, CommitOk, Active, Pool, Apart;
    Moves(s.f, t, s.f.(running := s.f.running - {t}, results := s.f.results[t := o]));
  }

  // ---- results ----

  /** A result of an earlier assignment moves nothing. */
  function Ignored(s: Loop, t: Task): Loop { s.(f := s.f.(results := s.f.results - {t}), inflight := s.inflight - 1) }

  /** A result is taken from its channel. */
  lemma Consumed(f: Flight, t: Task)
    requires Apart(f) && t in f.results
    ensures var f' := f.(results := f.results - {t});
            Apart(f') && t in Pool(f) && t in Active(f) && Active(f') == Active(f) - {t}
            && Pool(f') == Pool(f) - {t} && |Pool(f')| == |Pool(f)| - 1
  {
    hide Queued;
    var f' := f.(results := f.results - {t});
    assert Active(f') == Active(f) - {t};
    assert Pool(f') == Pool(f) - {t};
    LessCount(Pool(f), {t});
  }

  /** Waiting messages start. */
  lemma MovesUp(f: Flight, next: set<Task>, f': Flight)
    requires Apart(f) && next <= Queued(f.queues) && Queued(f'.queues) == Queued(f.queues) - next
    requires f' == f.(work := f.work + next, queues := f'.queues, lines := f'.lines)
    ensures Apart(f') && Active(f') == Active(f) + next && Pool(f') == Pool(f)
  {
    hide Queued;
    assert Active(f') == Active(f) + next;
    assert Pool(f') == Pool(f);
  }

  lemma GenerationsFewer(parts: Parts, pool: set<Task>, gen: nat, pool': set<Task>)
    requires Generations(parts, pool, gen) && pool' <= pool
    ensures Generations(parts, pool', gen)
  {
  }

  lemma IgnoredGood(c: Config, s: Loop, t: Task)
    requires Good(c, s) && t in s.f.results && !Current(s.b.parts, t)
    ensures Good(c, Ignored(s, t))
  {
    hide PartsOk, BacklogOk, LinesOk, Tails, Queued, Generations, CommitOk, Active, Pool, Apart;
    var f := Ignored(s, t).f;
    StaleParts(s.b.parts, s.b.past, Pool(s.f), s.backlog, t);
    if c.pooled {
      StaleLines(s.b.parts, s.b.past, Active(s.f), s.f.lines, c.keyOf, t);
    }
    Consumed(s.f, t);
    GenerationsFewer(s.b.parts, Pool(s.f), s.b.gen, Pool(f));
  }

  /** After a result, one partition may be due for a rewind. */
  ghost predicate Settling(c: Config, s: Loop, tp: TP) {
    && OthersOk(s.b.parts, s.b.past, Pool(s.f), s.backlog, tp) && Sound(c, s, Pool(s.f))
    && Between(s.b.parts[tp], s.b.past[tp], Mine(Pool(s.f), tp, s.b.parts[tp].gen), Waiting(s.backlog, tp))
  }

  /** released: the next message of the key starts. */
  function ReleasedTo(c: Config, f: Flight, t: Task): Flight {
    var k := IdOf(c.keyOf, t);
    if k.key == [] || !c.pooled then f
    else f.(queues := NextQueues(f.queues, k), lines := MovedUp(f.lines, k),
            work := f.work + if k in f.queues && f.queues[k] != [] then {f.queues[k][0]} else {})
  }

  function Safer(h: Past, o: nat): Past { h.(safe := h.safe + {o}) }

  /** A message is done or stored: its progress is recorded and its key released. */
  function FinishedAt(c: Config, s: Loop, t: Task): Loop
    requires t.tp in s.b.parts && t.tp in s.b.past
  {
    var p := s.b.parts[t.tp];
    var r := MarkedDone(p.(inflight := p.inflight - 1), t.offset);
    Loop(s.b.(parts := s.b.parts[t.tp := r], past := s.b.past[t.tp := Safer(s.b.past[t.tp], t.offset)],
              safe := if r.frontier > p.frontier then s.b.safe[t.tp := r.frontier] else s.b.safe),
         s.backlog, ReleasedTo(c, s.f.(results := s.f.results - {t}), t), s.inflight - 1)
  }

  lemma FinishCommit(b: Book, tp: TP, r: Part, h: Past)
    requires CommitOk(b) && tp in b.parts && r.next >= 0 && b.parts[tp].frontier <= r.frontier
    requires tp in b.past && h.first == b.past[tp].first <= b.parts[tp].frontier
    ensures CommitOk(b.(parts := b.parts[tp := r], past := b.past[tp := h],
                        safe := if r.frontier > b.parts[tp].frontier then b.safe[tp := r.frontier] else b.safe))
  {
  }

  lemma FirstBefore(c: Config, s: Loop, t: Task)
    requires Good(c, s) && t in s.f.results && Current(s.b.parts, t) && t.tp in s.b.past
    ensures s.b.past[t.tp].first <= s.b.parts[t.tp].frontier
    ensures Safer(s.b.past[t.tp], t.offset).first == s.b.past[t.tp].first
  {
    hide Sound;
    var p := s.b.parts[t.tp];
    assert PartOk(p, s.b.past[t.tp], Mine(Pool(s.f), t.tp, p.gen), Waiting(s.backlog, t.tp));
  }

  lemma BacklogSame(parts: Parts, backlog: seq<Task>, tp: TP, r: Part)
    requires BacklogOk(parts, backlog) && tp in parts && r.gen == parts[tp].gen
    ensures BacklogOk(parts[tp := r], backlog)
  {
  }

  lemma GenerationsSame(parts: Parts, pool: set<Task>, gen: nat, tp: TP, r: Part)
    requires Generations(parts, pool, gen) && tp in parts && r.gen == parts[tp].gen
    ensures Generations(parts[tp := r], pool, gen)
  {
  }

  lemma LinesSame(parts: Parts, past: Pasts, active: set<Task>, lines: Lines, keyOf: KeyOf, tp: TP, r: Part)
    requires LinesOk(parts, past, active, lines, keyOf) && tp in parts && r.gen == parts[tp].gen
    ensures LinesOk(parts[tp := r], past, active, lines, keyOf)
  {
    LinesKnown(parts, past, active, lines, keyOf);
    LinesFrame(parts, past, parts[tp := r], past, active, lines, keyOf);
  }

  /** What finishing a message does to everything in flight. */
  lemma FinishedFlight(c: Config, s: Loop, t: Task)
    requires Good(c, s) && t in s.f.results && Current(s.b.parts, t) && t.tp in s.b.past
    ensures var f := ReleasedTo(c, s.f.(results := s.f.results - {t}), t);
            Apart(f) && Pool(f) == Pool(s.f) - {t} && Ordered(c, s.b.(past := s.b.past[t.tp := Safer(s.b.past[t.tp], t.offset)]), f)
  {
    hide PartsOk, BacklogOk, LinesOk, Tails, Queued, Generations, CommitOk, NextQueues, MovedUp, NextUp, Active, Pool;
    hide Apart;
    var k, g := IdOf(c.keyOf, t), s.f.(results := s.f.results - {t});
    Consumed(s.f, t);
    if c.pooled {
      FinishLines(s.b.parts, s.b.past, Active(s.f), s.f.lines, c.keyOf, t);
      if k.key != [] {
        FailLines(s.b.parts, s.b.past, Active(s.f), s.f.lines, c.keyOf, t);
        TailsJoin(s.f.queues, s.f.lines, k, t);
        MoveQueues(s.b.parts, s.b.past, Active(s.f), s.f.lines, s.f.queues, c.keyOf, k);
        MovesUp(g, NextUp(s.f.lines, k), ReleasedTo(c, g, t));
      }
    }
  }

  lemma FinishedSound(c: Config, s: Loop, t: Task, r: Part)
    requires Good(c, s) && t in s.f.results && Current(s.b.parts, t) && t.tp in s.b.past
    requires r == MarkedDone(s.b.parts[t.tp].(inflight := s.b.parts[t.tp].inflight - 1), t.offset)
    requires r.gen == s.b.parts[t.tp].gen && r.next >= 0 && s.b.parts[t.tp].frontier <= r.frontier
    ensures Sound(c, FinishedAt(c, s, t), Pool(s.f) - {t}) && Pool(FinishedAt(c, s, t).f) == Pool(s.f) - {t}
  {
    hide PartsOk, BacklogOk, LinesOk, Tails, Queued, Generations, CommitOk, MarkedDone, Apart, ReleasedTo, Active;
    hide Pool, Safer;
    Consumed(s.f, t);
    FinishedFlight(c, s, t);
    var u, past' := FinishedAt(c, s, t), s.b.past[t.tp := Safer(s.b.past[t.tp], t.offset)];
    if c.pooled {
      LinesSame(s.b.parts, past', Active(u.f), u.f.lines, c.keyOf, t.tp, r);
    }
    FirstBefore(c, s, t);
    FinishCommit(s.b, t.tp, r, Safer(s.b.past[t.tp], t.offset));
    BacklogSame(s.b.parts, s.backlog, t.tp, r);
    GenerationsFewer(s.b.parts, Pool(s.f), s.b.gen, Pool(u.f));
    GenerationsSame(s.b.parts, Pool(u.f), s.b.gen, t.tp, r);
  }

  lemma FinishedSettles(c: Config, s: Loop, t: Task)
    requires Good(c, s) && t in s.f.results && Current(s.b.parts, t) && t.tp in s.b.past
    ensures Settling(c, FinishedAt(c, s, t), t.tp) && Pool(FinishedAt(c, s, t).f) == Pool(s.f) - {t}
    ensures s.b.parts[t.tp].frontier <= FinishedAt(c, s, t).b.parts[t.tp].frontier
  {
    hide PartsOk, Sound, OthersOk, Mine, Waiting, MarkedDone, FrontierOk, Placed, Covered, ReleasedTo, Active, Pool;
    GoodApart(c, s);
    Consumed(s.f, t);
    FinishParts(s.b.parts, s.b.past, Pool(s.f), s.backlog, t);
    FinishedSound(c, s, t, FinishedAt(c, s, t).b.parts[t.tp]);
  }

  lemma GoodApart(c: Config, s: Loop)
    requires Good(c, s)
    ensures Apart(s.f)
  {
  }

  // ---- failures ----

  /** The messages waiting behind the one that failed. */
  function Behind(c: Config, f: Flight, t: Task): seq<Task> {
    var k := IdOf(c.keyOf, t);
    if k.key != [] && k in f.queues then f.queues[k] else []
  }

  /** A message is neither done nor stored: it and those behind its key are given up, and
      the partition takes no new work until it is rewound. */
  function FailedAt(c: Config, s: Loop, t: Task): Loop
    requires t.tp in s.b.parts
  {
    var p, k, n := s.b.parts[t.tp], IdOf(c.keyOf, t), |Behind(c, s.f, t)|;
    Loop(WithPart(s.b, t.tp, Failed(p.(inflight := p.inflight - 1 - n), t.offset)), s.backlog,
         s.f.(results := s.f.results - {t}, queues := s.f.queues - {k}, lines := s.f.lines - {k}),
         s.inflight - 1 - n)
  }

  /** Waiting messages are dropped. */
  lemma Drops(f: Flight, gone: set<Task>, f': Flight)
    requires Apart(f) && gone <= Queued(f.queues) && Queued(f'.queues) == Queued(f.queues) - gone
    requires f' == f.(queues := f'.queues, lines := f'.lines)
    ensures Apart(f') && Active(f') == Active(f) && Pool(f') == Pool(f) - gone && gone <= Pool(f) && |Pool(f')| == |Pool(f)| - |gone|
  {
    hide Queued;
    DropSets(Active(f), Queued(f.queues), gone);
    LessCount(Pool(f), gone);
  }

  lemma DropSets<T>(a: set<T>, q: set<T>, gone: set<T>)
    requires a !! q && gone <= q
    ensures a + (q - gone) == (a + q) - gone && gone <= a + q && a !! q - gone
  {
  }

  lemma LessCount<T>(a: set<T>, b: set<T>)
    requires b <= a
    ensures |a - b| == |a| - |b|
  {
    assert a == (a - b) + b;
  }

  lemma TailsWithout(queues: Queues, lines: Lines, k: KeyId)
    requires Tails(queues, lines)
    ensures Tails(queues - {k}, lines - {k})
  {
  }

  /** What failing does to everything in flight. */
  lemma FailedFlight(c: Config, s: Loop, t: Task)
    requires Good(c, s) && t in s.f.results && Current(s.b.parts, t)
    ensures var f, gone := FailedAt(c, s, t).f, Members(Behind(c, s.f, t));
            && Apart(f) && Ordered(c, s.b, f) && Pool(f) == Pool(s.f) - {t} - gone && |Pool(f)| == |Pool(s.f)| - 1 - |gone|
            && gone <= Pool(s.f) - {t} && |gone| == |Behind(c, s.f, t)| && forall u <- gone :: u.tp == t.tp && u.gen == t.gen
  {
    hide PartsOk, BacklogOk, LinesOk, Tails, Queued, Generations, CommitOk, Active, Pool, Apart;
    var k, g := IdOf(c.keyOf, t), s.f.(results := s.f.results - {t});
    Consumed(s.f, t);
    GoodTogether(s.f, t);
    if c.pooled {
      FailLines(s.b.parts, s.b.past, Active(s.f), s.f.lines, c.keyOf, t);
      TailsJoin(s.f.queues, s.f.lines, k, t);
      TailsWithout(s.f.queues, s.f.lines, k);
      if k.key != [] {
        QueueApart(s.b.parts, s.b.past, Active(s.f), s.f.lines, s.f.queues, c.keyOf, k);
        forall u <- s.f.queues[k] ensures u.tp == t.tp && u.gen == t.gen {
          QueueOfKey(s.b.parts, s.b.past, Active(s.f), s.f.lines, s.f.queues, c.keyOf, k, u);
        }
        SplitQueued(s.f.queues, k);
        Drops(g, Members(s.f.queues[k]), FailedAt(c, s, t).f);
      } else {
        NoSuchLine(s.b.parts, s.b.past, Active(s.f), s.f.lines, c.keyOf, k);
        assert s.f.queues - {k} == s.f.queues && s.f.lines - {k} == s.f.lines;
        NoMembers();
      }
    } else {
      assert s.f.queues - {k} == s.f.queues;
      NoMembers();
      Relined(g, FailedAt(c, s, t).f);
    }
  }

  lemma NoMembers()
    ensures Members([]) == {}
  {
  }

  lemma GoodTogether(f: Flight, t: Task)
    requires Apart(f) && t in f.results
    ensures t in Active(f) && t !in Queued(f.queues)
  {
  }

  lemma Relined(f: Flight, f': Flight)
    requires Apart(f) && f' == f.(lines := f'.lines)
    ensures Apart(f') && Active(f') == Active(f) && Pool(f') == Pool(f)
  {
  }

  lemma NoSuchLine(parts: Parts, past: Pasts, active: set<Task>, lines: Lines, keyOf: KeyOf, k: KeyId)
    requires LinesOk(parts, past, active, lines, keyOf) && k.key == []
    ensures k !in lines
  {
  }

  lemma FailCommit(b: Book, tp: TP, r: Part)
    requires CommitOk(b) && tp in b.parts && r.next == b.parts[tp].next && r.frontier == b.parts[tp].frontier
    ensures CommitOk(WithPart(b, tp, r))
  {
  }

  lemma FailedSettles(c: Config, s: Loop, t: Task)
    requires Good(c, s) && t in s.f.results && Current(s.b.parts, t)
    ensures Settling(c, FailedAt(c, s, t), t.tp)
  {
    hide PartsOk, BacklogOk, LinesOk, Tails, Queued, Generations, CommitOk, OthersOk, Between, Mine, Waiting, Apart;
    hide Active, Pool, Members, Behind;
    var u, gone := FailedAt(c, s, t), Members(Behind(c, s.f, t));
    var r := u.b.parts[t.tp];
    Consumed(s.f, t);
    FailedFlight(c, s, t);
    FailParts(s.b.parts, s.b.past, Pool(s.f), s.backlog, t, gone);
    Recounted(c, s.(f := u.f), u.b, Pool(s.f));
    GenerationsFewer(u.b.parts, Pool(s.f), u.b.gen, Pool(u.f));
    FailCommit(s.b, t.tp, r);
    BacklogSame(s.b.parts, s.backlog, t.tp, r);
  }

  // ---- rewinding ----

  /** A partition that failed and has drained is read again from its first unfinished
      message. */
  function Settled(s: Loop, tp: TP): Loop
    requires tp in s.b.parts
  {
    var p := s.b.parts[tp];
    if Due(p) then s.(b := WithPart(s.b, tp, Rewound(p)), backlog := Dropped(s.backlog, {tp})) else s
  }

  lemma RewoundCommit(b: Book, tp: TP, h: Past, mine: set<nat>, waiting: set<nat>)
    requires CommitOk(b) && tp in b.parts && Between(b.parts[tp], h, mine, waiting)
    ensures CommitOk(WithPart(b, tp, Rewound(b.parts[tp])))
  {
  }

  lemma SettledGood(c: Config, s: Loop, tp: TP)
    requires Settling(c, s, tp) && tp in s.b.parts
    ensures Good(c, Settled(s, tp))
  {
    hide PartsOk, BacklogOk, LinesOk, Tails, Queued, Generations, CommitOk, OthersOk, Between, Mine, Waiting, Apart;
    hide Active, Pool, Dropped, Ordered;
    SettleParts(s.b.parts, s.b.past, Pool(s.f), s.backlog, tp);
    if Due(s.b.parts[tp]) {
      Recounted(c, s, WithPart(s.b, tp, Rewound(s.b.parts[tp])), Pool(s.f));
      RewoundCommit(s.b, tp, s.b.past[tp], Mine(Pool(s.f), tp, s.b.parts[tp].gen), Waiting(s.backlog, tp));
    }
  }

  // ---- rebalancing ----

  /** A partition is taken away: nothing of it stays but what workers are running. */
  ghost function RevokedAt(s: Loop, tp: TP): Loop {
    var queues := Without(s.f.queues, {tp});
    Loop(s.b.(parts := s.b.parts - {tp}, past := s.b.past - {tp}, safe := s.b.safe - {tp}, committed := s.b.committed - {tp}),
         Dropped(s.backlog, {tp}), s.f.(queues := queues, lines := Without(s.f.lines, {tp})),
         s.inflight - |Queued(s.f.queues) - Queued(queues)|)
  }

  lemma WithoutQueued(queues: Queues, gone: set<TP>)
    ensures Queued(Without(queues, gone)) <= Queued(queues)
  {
  }

  lemma RevokedTasks(c: Config, s: Loop, tp: TP, u: Task)
    requires Ordered(c, s.b, s.f) && u in Queued(s.f.queues) - Queued(Without(s.f.queues, {tp}))
    ensures u.tp == tp
  {
    hide LinesOk, Tails;
    var x :| x in s.f.queues && u in s.f.queues[x];
    QueueOfKey(s.b.parts, s.b.past, Active(s.f), s.f.lines, s.f.queues, c.keyOf, x, u);
    KeptQueued(s.f.queues, tp, x, u);
  }

  lemma KeptQueued(queues: Queues, tp: TP, x: KeyId, u: Task)
    requires x in queues && u in queues[x]
    ensures x.tp != tp ==> u in Queued(Without(queues, {tp}))
  {
    if x.tp != tp {
      assert x in Without(queues, {tp}) && u in Without(queues, {tp})[x];
    }
  }

  lemma RevokedCommit(b: Book, tp: TP)
    requires CommitOk(b)
    ensures CommitOk(b.(parts := b.parts - {tp}, past := b.past - {tp}, safe := b.safe - {tp}, committed := b.committed - {tp}))
  {
  }

  lemma GenerationsWithout(parts: Parts, pool: set<Task>, gen: nat, tp: TP, pool': set<Task>)
    requires Generations(parts, pool, gen) && pool' <= pool
    ensures Generations(parts - {tp}, pool', gen)
  {
  }

  lemma RevokedGood(c: Config, s: Loop, tp: TP)
    requires Good(c, s)
    ensures Good(c, RevokedAt(s, tp))
  {
    hide PartsOk, BacklogOk, LinesOk, Tails, Queued, Generations, CommitOk, Apart, Active, Pool, Dropped, Without;
    var u := RevokedAt(s, tp);
    var gone := Queued(s.f.queues) - Queued(u.f.queues);
    forall t <- gone ensures t.tp == tp {
      RevokedTasks(c, s, tp, t);
    }
    WithoutQueued(s.f.queues, {tp});
    Drops(s.f, gone, u.f);
    RevokeParts(s.b.parts, s.b.past, Pool(s.f), s.backlog, {tp}, gone);
    RevokedCommit(s.b, tp);
    GenerationsWithout(s.b.parts, Pool(s.f), s.b.gen, tp, Pool(u.f));
    if c.pooled {
      RevokeLines(s.b.parts, s.b.past, Active(s.f), s.f.lines, c.keyOf, {tp});
      RevokedQueues(s.f.queues, s.f.lines, {tp});
    } else {
      NoneWithout({tp});
    }
  }

  lemma NoneWithout(gone: set<TP>)
    ensures var none: Queues := map[]; Without(none, gone) == none
  {
  }

  /** A partition is assigned: progress starts afresh under a new generation. */
  function AssignedAt(s: Loop, tp: TP): Loop {
    var g := s.b.gen + 1;
    s.(b := s.b.(parts := s.b.parts[tp := Part(-1, -1, -1, g, {}, 0)], past := s.b.past[tp := Past(-1, {})],
                 committed := s.b.committed - {tp}, gen := g))
  }

  lemma AssignedFacts(c: Config, s: Loop, tp: TP)
    requires Sound(c, s, Pool(s.f)) && tp !in s.b.parts
    ensures CommitOk(AssignedAt(s, tp).b) && Generations(AssignedAt(s, tp).b.parts, Pool(s.f), s.b.gen + 1)
    ensures (forall t <- Pool(s.f) :: t.gen < s.b.gen + 1) && forall t <- Active(s.f) :: t.gen != s.b.gen + 1
  {
    hide BacklogOk, LinesOk, Tails, Queued, Apart;
  }

  lemma AssignedGood(c: Config, s: Loop, tp: TP)
    requires Good(c, s) && tp !in s.b.parts
    ensures Good(c, AssignedAt(s, tp))
  {
    hide PartsOk, BacklogOk, LinesOk, Tails, Queued, CommitOk, Apart, Active, Pool, Generations;
    AssignedFacts(c, s, tp);
    AssignParts(s.b.parts, s.b.past, Pool(s.f), s.backlog, tp, s.b.gen + 1);
    if c.pooled {
      AssignLines(s.b.parts, s.b.past, Active(s.f), s.f.lines, c.keyOf, tp, Part(-1, -1, -1, s.b.gen + 1, {}, 0), Past(-1, {}));
    }
  }

  // ---- committing ----

  /** Every safe offset of these partitions that is past what was committed. */
  function Pending(b: Book, only: set<TP>): map<TP, int> {
    map tp | tp in b.safe && tp in only && (tp !in b.committed || b.safe[tp] > b.committed[tp]) :: b.safe[tp]
  }

  function CommittedTo(s: Loop, only: set<TP>): Loop { s.(b := s.b.(committed := s.b.committed + Pending(s.b, only))) }

  /** Commits never go back. */
  ghost predicate CommitsGrow(a: map<TP, int>, b: map<TP, int>) { forall tp <- a :: tp in b && a[tp] <= b[tp] }

  lemma CommittedGood(c: Config, s: Loop, only: set<TP>)
    requires Good(c, s)
    ensures Good(c, CommittedTo(s, only)) && CommitsGrow(s.b.committed, CommittedTo(s, only).b.committed)
  {
    hide PartsOk, BacklogOk, LinesOk, Tails, Queued, Apart, Active, Pool, Generations;
  }

  /** There is something to commit for a partition exactly when its frontier has passed the
      first offset of the assignment. */
  lemma SafeIff(c: Config, s: Loop, tp: TP)
    requires Good(c, s)
    ensures tp in s.b.safe <==> tp in s.b.parts && tp in s.b.past && s.b.past[tp].first < s.b.parts[tp].frontier
    ensures tp in s.b.safe ==> s.b.safe[tp] == s.b.parts[tp].frontier
  {
    GoodPast(c, s);
  }

  /** The offset a partition is committed at is the first that is neither done nor stored. */
  ghost predicate CommittedAtFrontier(b: Book, tp: TP) {
    && tp in b.committed && tp in b.parts && tp in b.past && b.committed[tp] == b.parts[tp].frontier
    && b.past[tp].first < b.committed[tp] && b.committed[tp] !in b.past[tp].safe
    && forall o: nat :: b.past[tp].first <= o < b.committed[tp] ==> o in b.past[tp].safe
  }

  /** What committing these partitions changes: each of them whose frontier has passed its
      first offset is then committed at its frontier; no other committed offset changes. */
  lemma CommitMeans(c: Config, s: Loop, only: set<TP>, tp: TP)
    requires Good(c, s)
    ensures var b, b' := s.b, CommittedTo(s, only).b;
            && (tp in only && tp in b.parts && tp in b.past && b.past[tp].first < b.parts[tp].frontier ==> CommittedAtFrontier(b', tp))
            && (tp !in only || tp !in b.safe ==>
                 (tp in b'.committed <==> tp in b.committed) && (tp in b.committed ==> b'.committed[tp] == b.committed[tp]))
  {
    hide Ordered, BacklogOk, Apart, Generations, Active, Covered, Placed;
    SafeIff(c, s, tp);
    if tp in s.b.safe {
      var p := s.b.parts[tp];
      assert PartOk(p, s.b.past[tp], Mine(Pool(s.f), tp, p.gen), Waiting(s.backlog, tp));
    }
  }

  // ---- what it all means ----

  /** Commit safety: a committed offset is at most the frontier, and every earlier offset of
      the assignment is done, or durable in the store. */
  lemma CommitSafe(c: Config, s: Loop, tp: TP, o: nat)
    requires Good(c, s) && tp in s.b.committed
    ensures tp in s.b.parts && tp in s.b.past && s.b.committed[tp] <= s.b.parts[tp].frontier
    ensures s.b.past[tp].first <= o < s.b.committed[tp] ==> o in s.b.past[tp].safe
  {
    var p := s.b.parts[tp];
    assert PartOk(p, s.b.past[tp], Mine(Pool(s.f), tp, p.gen), Waiting(s.backlog, tp));
  }

  /** Nothing is lost: an accepted offset that has never been done or stored is in the
      backlog or in flight, unless a rewind to it or before is due; and then something is
      still in flight that will bring it about. */
  lemma NoneLost(c: Config, s: Loop, tp: TP, o: nat)
    requires Good(c, s) && tp in s.b.parts && tp in s.b.past && s.b.parts[tp].next >= 0
    requires s.b.past[tp].first <= o < s.b.parts[tp].next && o !in s.b.past[tp].safe
    ensures var t := Task(tp, o, s.b.parts[tp].gen);
            t in s.backlog || t in Pool(s.f) || (s.b.parts[tp].failedAt >= 0 && s.b.parts[tp].frontier <= o)
    ensures s.b.parts[tp].failedAt >= 0 ==> exists u :: u in Pool(s.f) && u.tp == tp && u.gen == s.b.parts[tp].gen
  {
    var p, h := s.b.parts[tp], s.b.past[tp];
    var mine, waiting := Mine(Pool(s.f), tp, p.gen), Waiting(s.backlog, tp);
    assert PartOk(p, h, mine, waiting);
    NothingLost(p, h, mine, waiting, o);
    MineIn(Pool(s.f), Task(tp, o, p.gen));
    if o in waiting {
      var u :| u in s.backlog && u.tp == tp && u.offset == o;
      assert Current(s.b.parts, u);
    }
    if p.failedAt >= 0 {
      var x :| x in mine;
      assert Task(tp, x, p.gen) in Pool(s.f);
    }
  }

  /** The work channel, as large as the limit, never overflows. */
  lemma WorkFits(c: Config, s: Loop)
    requires Good(c, s)
    ensures |s.f.work| <= c.maxInFlight && |s.f.results| <= c.maxInFlight
  {
    hide PartsOk, BacklogOk, LinesOk, Tails, Queued, CommitOk, Generations;
    LessCount(Pool(s.f), s.f.work);
    LessCount(Pool(s.f), s.f.results.Keys);
    assert |s.f.results| == |s.f.results.Keys|;
  }

  /** The message is with the workers; or, with a single one, it is the next to run and
      nothing else is in flight. */
  ghost predicate InHand(c: Config, s: Loop, t: Task) {
    if c.pooled then t in s.f.work + s.f.running
    else
      && s.backlog != [] && t == s.backlog[0] && Current(s.b.parts, t) && s.b.parts[t.tp].failedAt < 0
      && s.f.results == map[]
  }

  /** With a single worker a message runs only when every earlier one of its partition has
      been done or stored. */
  lemma InlineOrder(c: Config, s: Loop, t: Task)
    requires Good(c, s) && !c.pooled && InHand(c, s, t)
    ensures t.tp in s.b.past && forall o: nat :: s.b.past[t.tp].first <= o < t.offset ==> o in s.b.past[t.tp].safe
  {
    hide LinesOk, Tails, CommitOk, Generations;
    var p := s.b.parts[t.tp];
    WaitingHead(s.b.parts, s.backlog, t.tp);
    assert Pool(s.f) == {};
    assert PartOk(p, s.b.past[t.tp], Mine(Pool(s.f), t.tp, p.gen), Waiting(s.backlog, t.tp));
  }

  /** Per-key order within an assignment: when a message runs, every earlier message of its
      key has been done or stored, and no other of the key runs. */
  lemma KeyOrder(c: Config, s: Loop, t: Task)
    requires Good(c, s) && InHand(c, s, t) && Current(s.b.parts, t) && IdOf(c.keyOf, t).key != []
    ensures t.tp in s.b.past
    ensures forall o: nat :: s.b.past[t.tp].first <= o < t.offset && c.keyOf(t.tp, o) == c.keyOf(t.tp, t.offset) ==>
              o in s.b.past[t.tp].safe
    ensures forall u :: InHand(c, s, u) && Current(s.b.parts, u) && IdOf(c.keyOf, u) == IdOf(c.keyOf, t) ==> u == t
  {
    hide PartsOk, BacklogOk, Tails, Queued, CommitOk, Generations;
    if c.pooled {
      RunsInOrder(s.b.parts, s.b.past, Active(s.f), s.f.lines, c.keyOf, t);
    } else {
      InlineOrder(c, s, t);
    }
  }
}
