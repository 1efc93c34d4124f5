/** All partitions of the consumer together: the backlog, everything in flight, and the
    lines that form behind a key. */
module ConsumerPool {
  import opened Records
  import opened ConsumerState

  // ---- partitions ----

  type Parts = map<TP, Part>
  type Pasts = map<TP, Past>

  predicate Current(parts: Parts, t: Task) { t.tp in parts && parts[t.tp].gen == t.gen }

  ghost function Mine(pool: set<Task>, tp: TP, gen: nat): set<nat> {
    set t | t in pool && t.tp == tp && t.gen == gen :: t.offset
  }

  ghost function Waiting(backlog: seq<Task>, tp: TP): set<nat> {
    set t | t in backlog && t.tp == tp :: t.offset
  }

  ghost predicate PartsOk(parts: Parts, past: Pasts, pool: set<Task>, backlog: seq<Task>) {
    && past.Keys == parts.Keys
    && (forall tp <- parts :: PartOk(parts[tp], past[tp], Mine(pool, tp, parts[tp].gen), Waiting(backlog, tp)))
  }

  /** Messages wait in the order they were accepted, and only for partitions held now. */
  ghost predicate BacklogOk(parts: Parts, backlog: seq<Task>) {
    && (forall t <- backlog :: Current(parts, t))
    && (forall i, j :: 0 <= i < j < |backlog| && backlog[i].tp == backlog[j].tp ==> backlog[i].offset < backlog[j].offset)
  }

  lemma WaitingHead(parts: Parts, backlog: seq<Task>, tp: TP)
    requires BacklogOk(parts, backlog) && backlog != []
    ensures var t := backlog[0];
            && Waiting(backlog[1..], tp) == (if tp == t.tp then Waiting(backlog, tp) - {t.offset} else Waiting(backlog, tp))
            && BacklogOk(parts, backlog[1..])
            && t.offset in Waiting(backlog, t.tp) && (forall w <- Waiting(backlog, t.tp) :: t.offset <= w)
  {
    var t, rest := backlog[0], backlog[1..];
    forall u <- rest | u.tp == t.tp ensures t.offset < u.offset {
      var i :| 0 <= i < |rest| && rest[i] == u;
      assert backlog[i + 1] == u;
    }
    forall i, j | 0 <= i < j < |rest| && rest[i].tp == rest[j].tp ensures rest[i].offset < rest[j].offset {
      assert rest[i] == backlog[i + 1] && rest[j] == backlog[j + 1];
    }
    forall o ensures o in Waiting(rest, tp) <==> o in if tp == t.tp then Waiting(backlog, tp) - {t.offset} else Waiting(backlog, tp) {
      if o in Waiting(backlog, tp) {
        var u :| u in backlog && u.tp == tp && u.offset == o;
        assert u == t || u in rest;
      }
      if o in Waiting(rest, tp) {
        var u :| u in rest && u.tp == tp && u.offset == o;
        assert u in backlog;
      }
    }
  }

  lemma WaitingSnoc(backlog: seq<Task>, t: Task, tp: TP)
    ensures Waiting(backlog + [t], tp) == Waiting(backlog, tp) + if t.tp == tp then {t.offset} else {}
  {
    forall o ensures o in Waiting(backlog + [t], tp) <==> o in Waiting(backlog, tp) + if t.tp == tp then {t.offset} else {} {
      if o in Waiting(backlog, tp) {
        var u :| u in backlog && u.tp == tp && u.offset == o;
        assert u in backlog + [t];
      }
      if t.tp == tp && o == t.offset {
        assert t in backlog + [t];
      }
    }
  }

  lemma MineAdd(pool: set<Task>, t: Task, tp: TP, gen: nat)
    ensures Mine(pool + {t}, tp, gen) == Mine(pool, tp, gen) + if t.tp == tp && t.gen == gen then {t.offset} else {}
  {
  }

  lemma MineRemove(pool: set<Task>, gone: set<Task>, tp: TP, gen: nat)
    ensures Mine(pool - gone, tp, gen) == Mine(pool, tp, gen) - Mine(gone, tp, gen)
  {
    forall o ensures o in Mine(pool - gone, tp, gen) <==> o in Mine(pool, tp, gen) - Mine(gone, tp, gen) {
      if o in Mine(pool, tp, gen) {
        assert Task(tp, o, gen) in pool;
      }
      if o in Mine(gone, tp, gen) {
        assert Task(tp, o, gen) in gone;
      }
    }
  }

  lemma AcceptBacklog(parts: Parts, past: Pasts, pool: set<Task>, backlog: seq<Task>, tp: TP, o: nat)
    requires PartsOk(parts, past, pool, backlog) && BacklogOk(parts, backlog) && tp in parts
    requires parts[tp].next >= 0 ==> o == parts[tp].next
    ensures BacklogOk(parts[tp := Accepted(parts[tp], o)], backlog)
    ensures BacklogOk(parts[tp := Accepted(parts[tp], o)], backlog + [Task(tp, o, parts[tp].gen)])
  {
    var p := parts[tp];
    assert PartOk(p, past[tp], Mine(pool, tp, p.gen), Waiting(backlog, tp));
    forall u <- backlog | u.tp == tp ensures u.offset < o {
      assert u.offset in Waiting(backlog, tp);
    }
  }

  /** Nothing changed for a partition. */
  ghost predicate Unmoved(x: TP, gen: nat, pool: set<Task>, backlog: seq<Task>, pool': set<Task>, backlog': seq<Task>) {
    Mine(pool', x, gen) == Mine(pool, x, gen) && Waiting(backlog', x) == Waiting(backlog, x)
  }

  lemma OnePart(parts: Parts, past: Pasts, pool: set<Task>, backlog: seq<Task>, tp: TP, p: Part, h: Past,
      pool': set<Task>, backlog': seq<Task>)
    requires PartsOk(parts, past, pool, backlog) && tp in parts
    requires forall x <- parts :: x != tp ==> Unmoved(x, parts[x].gen, pool, backlog, pool', backlog')
    requires PartOk(p, h, Mine(pool', tp, p.gen), Waiting(backlog', tp))
    ensures PartsOk(parts[tp := p], past[tp := h], pool', backlog')
  {
    hide PartOk, Mine, Waiting;
  }

  lemma AcceptParts(parts: Parts, past: Pasts, pool: set<Task>, backlog: seq<Task>, tp: TP, o: nat)
    requires PartsOk(parts, past, pool, backlog) && BacklogOk(parts, backlog) && tp in parts && parts[tp].failedAt < 0
    requires parts[tp].next >= 0 ==> o == parts[tp].next
    ensures var p := parts[tp];
            var parts', past' := parts[tp := Accepted(p, o)], past[tp := PastAccepted(p, past[tp], o)];
            var backlog' := if o in p.completed then backlog else backlog + [Task(tp, o, p.gen)];
            PartsOk(parts', past', pool, backlog') && BacklogOk(parts', backlog')
  {
    hide BacklogOk, Mine, Waiting, PartOk;
    var p, t := parts[tp], Task(tp, o, parts[tp].gen);
    var backlog' := if o in p.completed then backlog else backlog + [t];
    AcceptKeeps(p, past[tp], Mine(pool, tp, p.gen), Waiting(backlog, tp), o);
    AcceptBacklog(parts, past, pool, backlog, tp, o);
    forall x <- parts ensures x != tp ==> Unmoved(x, parts[x].gen, pool, backlog, pool, backlog') {
      WaitingSnoc(backlog, t, x);
    }
    WaitingSnoc(backlog, t, tp);
    OnePart(parts, past, pool, backlog, tp, Accepted(p, o), PastAccepted(p, past[tp], o), pool, backlog');
  }

  lemma DispatchParts(parts: Parts, past: Pasts, pool: set<Task>, backlog: seq<Task>)
    requires PartsOk(parts, past, pool, backlog) && BacklogOk(parts, backlog) && backlog != [] && Current(parts, backlog[0])
    ensures var t := backlog[0];
            var p := parts[t.tp];
            var parts' := if p.failedAt < 0 then parts[t.tp := p.(inflight := p.inflight + 1)] else parts;
            && (p.failedAt < 0 ==> t !in pool)
            && PartsOk(parts', past, if p.failedAt < 0 then pool + {t} else pool, backlog[1..]) && BacklogOk(parts', backlog[1..])
  {
    hide Mine, Waiting, PartOk;
    var t := backlog[0];
    var p := parts[t.tp];
    var pool' := if p.failedAt < 0 then pool + {t} else pool;
    WaitingHead(parts, backlog, t.tp);
    MineAdd(pool, t, t.tp, p.gen);
    MineIn(pool, t);
    DispatchKeeps(p, past[t.tp], Mine(pool, t.tp, p.gen), Waiting(backlog, t.tp), t.offset);
    forall x <- parts ensures x != t.tp ==> Unmoved(x, parts[x].gen, pool, backlog, pool', backlog[1..]) {
      WaitingHead(parts, backlog, x);
      MineAdd(pool, t, x, parts[x].gen);
    }
    OnePart(parts, past, pool, backlog, t.tp, if p.failedAt < 0 then p.(inflight := p.inflight + 1) else p,
        past[t.tp], pool', backlog[1..]);
  }

  lemma MineIn(pool: set<Task>, t: Task)
    ensures t in pool <==> t.offset in Mine(pool, t.tp, t.gen)
  {
  }

  /** A result of an earlier assignment concerns nobody. */
  lemma StaleParts(parts: Parts, past: Pasts, pool: set<Task>, backlog: seq<Task>, t: Task)
    requires PartsOk(parts, past, pool, backlog) && !Current(parts, t)
    ensures PartsOk(parts, past, pool - {t}, backlog)
  {
    hide PartOk;
    forall tp <- parts ensures Mine(pool - {t}, tp, parts[tp].gen) == Mine(pool, tp, parts[tp].gen) {
      MineRemove(pool, {t}, tp, parts[tp].gen);
      assert Mine({t}, tp, parts[tp].gen) == {};
    }
  }

  /** Everything but partition tp, which may be between two states. */
  ghost predicate OthersOk(parts: Parts, past: Pasts, pool: set<Task>, backlog: seq<Task>, tp: TP) {
    && past.Keys == parts.Keys && tp in parts
    && (forall x <- parts :: x != tp ==> PartOk(parts[x], past[x], Mine(pool, x, parts[x].gen), Waiting(backlog, x)))
  }

  lemma OthersUnmoved(parts: Parts, past: Pasts, pool: set<Task>, backlog: seq<Task>, tp: TP, p: Part, h: Past,
      gone: set<Task>)
    requires OthersOk(parts, past, pool, backlog, tp) && (forall t <- gone :: t.tp == tp)
    ensures OthersOk(parts[tp := p], past[tp := h], pool - gone, backlog, tp)
  {
    hide PartOk;
    forall x <- parts | x != tp ensures Mine(pool - gone, x, parts[x].gen) == Mine(pool, x, parts[x].gen) {
      MineRemove(pool, gone, x, parts[x].gen);
      assert Mine(gone, x, parts[x].gen) == {};
    }
  }

  lemma WholeParts(parts: Parts, past: Pasts, pool: set<Task>, backlog: seq<Task>, tp: TP)
    requires OthersOk(parts, past, pool, backlog, tp)
    requires PartOk(parts[tp], past[tp], Mine(pool, tp, parts[tp].gen), Waiting(backlog, tp))
    ensures PartsOk(parts, past, pool, backlog)
  {
  }

  /** The backlog without one partition's messages. */
  function Dropped(backlog: seq<Task>, gone: set<TP>): (r: seq<Task>)
    ensures forall t :: t in r <==> t in backlog && t.tp !in gone
  {
    if backlog == [] then []
    else if backlog[0].tp in gone then Dropped(backlog[1..], gone)
    else [backlog[0]] + Dropped(backlog[1..], gone)
  }

  lemma DroppedStep(b: seq<Task>, i: nat, gone: set<TP>)
    requires i <= |b|
    ensures Dropped(b[i..], gone) == if i == |b| then []
            else (if b[i].tp in gone then [] else [b[i]]) + Dropped(b[i + 1..], gone)
  {
    if i < |b| {
      assert b[i..][1..] == b[i + 1..];
    }
  }

  lemma {:induction false} DroppedOrder(parts: Parts, backlog: seq<Task>, gone: set<TP>)
    requires BacklogOk(parts, backlog)
    ensures BacklogOk(parts, Dropped(backlog, gone))
  {
    if backlog != [] {
      var t, rest := backlog[0], backlog[1..];
      WaitingHead(parts, backlog, t.tp);
      DroppedOrder(parts, rest, gone);
      if t.tp !in gone {
        var r := Dropped(rest, gone);
        forall u <- r | u.tp == t.tp ensures t.offset < u.offset {
          var i :| 0 <= i < |rest| && rest[i] == u;
          assert backlog[i + 1] == u;
        }
      }
    }
  }

  lemma WaitingDropped(backlog: seq<Task>, gone: set<TP>, tp: TP)
    ensures Waiting(Dropped(backlog, gone), tp) == if tp in gone then {} else Waiting(backlog, tp)
  {
    forall o ensures o in Waiting(Dropped(backlog, gone), tp) <==> o in if tp in gone then {} else Waiting(backlog, tp) {
      if tp !in gone && o in Waiting(backlog, tp) {
        var u :| u in backlog && u.tp == tp && u.offset == o;
        assert u in Dropped(backlog, gone);
      }
    }
  }

  lemma OthersDropped(parts: Parts, past: Pasts, pool: set<Task>, backlog: seq<Task>, tp: TP)
    requires OthersOk(parts, past, pool, backlog, tp)
    ensures OthersOk(parts, past, pool, Dropped(backlog, {tp}), tp)
  {
    hide PartOk;
    forall x <- parts | x != tp ensures Waiting(Dropped(backlog, {tp}), x) == Waiting(backlog, x) {
      WaitingDropped(backlog, {tp}, x);
    }
  }

  // ---- lines behind a key ----

  datatype KeyId = KeyId(tp: TP, key: Text)

  /** What is written in the log never changes, so a message's key is a fact about its
      place in it. */
  type KeyOf = (TP, nat) -> Text

  function IdOf(keyOf: KeyOf, t: Task): KeyId { KeyId(t.tp, keyOf(t.tp, t.offset)) }

  /** The message that runs for a key, then those waiting behind it. */
  type Lines = map<KeyId, seq<Task>>

  /** In offset order, and nothing of the key before any of them is unfinished unless it
      stands further ahead in the line. */
  ghost predicate LineOk(line: seq<Task>, k: KeyId, past: Past, keyOf: KeyOf) {
    && (forall i, j :: 0 <= i < j < |line| ==> line[i].offset < line[j].offset)
    && (forall i, o: nat :: 0 <= i < |line| && past.first <= o < line[i].offset && keyOf(k.tp, o) == k.key ==>
          o in past.safe || exists j :: 0 <= j < i && line[j].offset == o)
  }

  ghost predicate KeyOk(parts: Parts, past: Pasts, active: set<Task>, line: seq<Task>, k: KeyId, keyOf: KeyOf) {
    && k.key != [] && k.tp in parts && k.tp in past && line != [] && line[0] in active
    && (forall t <- line :: Current(parts, t) && IdOf(keyOf, t) == k)
    && LineOk(line, k, past[k.tp], keyOf)
  }

  /** A message that runs is the first of its key's line. */
  ghost predicate Leads(parts: Parts, lines: Lines, t: Task, keyOf: KeyOf) {
    var k := IdOf(keyOf, t);
    Current(parts, t) && k.key != [] ==> k in lines && lines[k] != [] && lines[k][0] == t
  }

  ghost predicate LinesOk(parts: Parts, past: Pasts, active: set<Task>, lines: Lines, keyOf: KeyOf) {
    && (forall k <- lines :: KeyOk(parts, past, active, lines[k], k, keyOf))
    && (forall t <- active :: Leads(parts, lines, t, keyOf))
  }

  /** keyQueues holds each line without its first. */
  ghost predicate Tails(queues: map<KeyId, seq<Task>>, lines: Lines) {
    queues.Keys == lines.Keys && forall k <- lines :: lines[k] != [] && queues[k] == lines[k][1..]
  }

  ghost function Queued(queues: map<KeyId, seq<Task>>): set<Task> { set k, t | k in queues && t in queues[k] :: t }

  // ---- finishing and rewinding ----

  /** Where a partition stands after a result: fit to go on, or due to be rewound. */
  ghost predicate Between(p: Part, h: Past, mine: set<nat>, waiting: set<nat>) {
    && p.next >= 0 && FrontierOk(p, h) && Placed(p, h, mine, waiting) && -1 <= p.failedAt
    && (p.failedAt < 0 || p.inflight > 0 ==> Covered(p, mine, waiting))
  }

  predicate Due(p: Part) { p.failedAt >= 0 && p.inflight == 0 }

  lemma SettleParts(parts: Parts, past: Pasts, pool: set<Task>, backlog: seq<Task>, tp: TP)
    requires OthersOk(parts, past, pool, backlog, tp) && BacklogOk(parts, backlog)
    requires Between(parts[tp], past[tp], Mine(pool, tp, parts[tp].gen), Waiting(backlog, tp))
    ensures Due(parts[tp]) ==>
              var parts' := parts[tp := Rewound(parts[tp])];
              PartsOk(parts', past, pool, Dropped(backlog, {tp})) && BacklogOk(parts', Dropped(backlog, {tp}))
    ensures !Due(parts[tp]) ==> PartsOk(parts, past, pool, backlog)
  {
    var p, h := parts[tp], past[tp];
    if Due(p) {
      var parts' := parts[tp := Rewound(p)];
      RewindKeeps(p, h);
      OthersDropped(parts, past, pool, backlog, tp);
      WaitingDropped(backlog, {tp}, tp);
      DroppedOrder(parts, backlog, {tp});
      RewoundOthers(parts, past, pool, Dropped(backlog, {tp}), tp);
      WholeParts(parts', past, pool, Dropped(backlog, {tp}), tp);
    } else {
      WholeParts(parts, past, pool, backlog, tp);
    }
  }

  lemma RewoundOthers(parts: Parts, past: Pasts, pool: set<Task>, backlog: seq<Task>, tp: TP)
    requires OthersOk(parts, past, pool, backlog, tp)
    ensures OthersOk(parts[tp := Rewound(parts[tp])], past, pool, backlog, tp)
  {
    hide PartOk;
  }

  /** A safe result: the partition's progress is recorded, everything else stays. */
  lemma FinishParts(parts: Parts, past: Pasts, pool: set<Task>, backlog: seq<Task>, t: Task)
    requires PartsOk(parts, past, pool, backlog) && t in pool && Current(parts, t)
    ensures var p, h := parts[t.tp], past[t.tp];
            var r, h' := MarkedDone(p.(inflight := p.inflight - 1), t.offset), h.(safe := h.safe + {t.offset});
            && r.gen == p.gen && p.frontier <= r.frontier
            && OthersOk(parts[t.tp := r], past[t.tp := h'], pool - {t}, backlog, t.tp)
            && Between(r, h', Mine(pool - {t}, t.tp, r.gen), Waiting(backlog, t.tp))
  {
    var p, h := parts[t.tp], past[t.tp];
    MineRemove(pool, {t}, t.tp, p.gen);
    MineOne(t);
    MineIn(pool, t);
    assert PartOk(p, h, Mine(pool, t.tp, p.gen), Waiting(backlog, t.tp));
    FinishKeeps(p, h, Mine(pool, t.tp, p.gen), Waiting(backlog, t.tp), t.offset);
    OthersUnmoved(parts, past, pool, backlog, t.tp, MarkedDone(p.(inflight := p.inflight - 1), t.offset),
        h.(safe := h.safe + {t.offset}), {t});
  }

  lemma MineOne(t: Task)
    ensures Mine({t}, t.tp, t.gen) == {t.offset}
  {
  }

  /** A failed result, with what waited behind its key. */
  lemma FailParts(parts: Parts, past: Pasts, pool: set<Task>, backlog: seq<Task>, t: Task, gone: set<Task>)
    requires PartsOk(parts, past, pool, backlog) && t in pool && Current(parts, t)
    requires gone <= pool - {t} && forall u <- gone :: u.tp == t.tp && u.gen == t.gen
    ensures var p := parts[t.tp];
            var r := Failed(p.(inflight := p.inflight - 1 - |gone|), t.offset);
            && OthersOk(parts[t.tp := r], past, pool - {t} - gone, backlog, t.tp)
            && Between(r, past[t.tp], Mine(pool - {t} - gone, t.tp, r.gen), Waiting(backlog, t.tp))
  {
    hide Mine, Waiting, FrontierOk, Covered, Placed;
    var p, h := parts[t.tp], past[t.tp];
    MineRemove(pool, {t}, t.tp, p.gen);
    MineRemove(pool - {t}, gone, t.tp, p.gen);
    MineOne(t);
    MineIn(pool, t);
    MineCount(gone, t.tp, t.gen);
    MineSubset(gone, pool - {t}, t.tp, p.gen);
    assert PartOk(p, h, Mine(pool, t.tp, p.gen), Waiting(backlog, t.tp));
    FailedStays(p, h, Mine(pool, t.tp, p.gen), Waiting(backlog, t.tp), t.offset, Mine(gone, t.tp, p.gen));
    OthersUnmoved(parts, past, pool, backlog, t.tp, Failed(p.(inflight := p.inflight - 1 - |gone|), t.offset), h, {t} + gone);
    assert pool - ({t} + gone) == pool - {t} - gone;
    assert past[t.tp := h] == past;
  }

  lemma FailedStays(p: Part, h: Past, mine: set<nat>, waiting: set<nat>, o: nat, dropped: set<nat>)
    requires p.next >= 0 && FrontierOk(p, h) && Covered(p, mine, waiting) && Placed(p, h, mine, waiting)
    requires o in mine && dropped <= mine - {o}
    ensures Between(Failed(p.(inflight := p.inflight - 1 - |dropped|), o), h, mine - {o} - dropped, waiting)
  {
    FailKeeps(p, h, mine, waiting, o, dropped);
  }

  lemma MineSubset(a: set<Task>, b: set<Task>, tp: TP, gen: nat)
    requires a <= b
    ensures Mine(a, tp, gen) <= Mine(b, tp, gen)
  {
  }

  /** Tasks of one partition and generation are as many as their offsets. */
  lemma {:induction false} MineCount(ts: set<Task>, tp: TP, gen: nat)
    requires forall t <- ts :: t.tp == tp && t.gen == gen
    ensures |Mine(ts, tp, gen)| == |ts|
    decreases |ts|
  {
    if ts != {} {
      var t :| t in ts;
      var rest := ts - {t};
      MineCount(rest, tp, gen);
      assert Mine(ts, tp, gen) == Mine(rest, tp, gen) + {t.offset};
      assert t.offset !in Mine(rest, tp, gen);
    } else {
      assert Mine(ts, tp, gen) == {};
    }
  }

  // ---- rebalancing ----

  lemma RevokeParts(parts: Parts, past: Pasts, pool: set<Task>, backlog: seq<Task>, gone: set<TP>, tasks: set<Task>)
    requires PartsOk(parts, past, pool, backlog) && BacklogOk(parts, backlog) && forall t <- tasks :: t.tp in gone
    ensures PartsOk(parts - gone, past - gone, pool - tasks, Dropped(backlog, gone)) && BacklogOk(parts - gone, Dropped(backlog, gone))
  {
    hide PartOk;
    DroppedOrder(parts, backlog, gone);
    forall x <- parts - gone ensures Unmoved(x, parts[x].gen, pool, backlog, pool - tasks, Dropped(backlog, gone)) {
      WaitingDropped(backlog, gone, x);
      MineRemove(pool, tasks, x, parts[x].gen);
      assert Mine(tasks, x, parts[x].gen) == {};
    }
  }

  lemma AssignParts(parts: Parts, past: Pasts, pool: set<Task>, backlog: seq<Task>, tp: TP, gen: nat)
    requires PartsOk(parts, past, pool, backlog) && BacklogOk(parts, backlog) && tp !in parts && forall t <- pool :: t.gen < gen
    ensures var parts', past' := parts[tp := Part(-1, -1, -1, gen, {}, 0)], past[tp := Past(-1, {})];
            PartsOk(parts', past', pool, backlog) && BacklogOk(parts', backlog)
  {
    assert Mine(pool, tp, gen) == {};
    assert Waiting(backlog, tp) == {} by {
      forall t <- backlog ensures t.tp != tp {
        assert Current(parts, t);
      }
    }
  }
}
